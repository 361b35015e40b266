/** The request normaliser of the text-generation backend: `transform_genparams` turns a
    loosely typed request in one of seven API dialects into the canonical
    generation-parameter mapping, updating the request mapping in place.

    The specification is a chain of pure stage functions ending in `TransformGenParams`;
    the class `GenParams` performs the same updates step by step on its `params` field, and
    the message and content-item loops are methods proved against `RenderPrefix` and
    `RenderItems`. */
module GenParams {
  import opened Py

  type Params = map<string, Value>

  /** External pieces the transform reads: the process-wide chat adapter
      (`chatcompl_adapter`, `None` when unset) and default context size (`maxctx`), the
      string parsers of `float()`/`int()`, `tryparseint`, `detokenize_ids` (`None` when it
      raises), `json.dumps(_, indent=0)` and `str()` of a non-string value. */
  datatype Env = Env(
    adapter: Option<Params>,
    maxctx: Value,
    parsers: Parsers,
    tryParseInt: Value -> int,
    detokenize: Value -> Option<string>,
    jsonDumps: Value -> string,
    pyStr: Value -> string)

  /** API format numbers. */
  const Basic := 1
  const Kai := 2
  const OpenAICompletion := 3
  const OpenAIChat := 4
  const Interrogate := 5
  const OllamaGenerate := 6
  const OllamaChat := 7

  /** The fixed JSON-array grammar forced when tool calling is injected. */
  const JsonArrGrammar: string :=
    "\n" +
    "root   ::= arr\n" +
    "value  ::= object | array | string | number | (\"true\" | \"false\" | \"null\") ws\n" +
    "arr  ::=\n" +
    "  \"[\\n\" ws (\n" +
    "            value\n" +
    "    (\",\\n\" ws value)*\n" +
    "  )? \"]\"\n" +
    "object ::=\n" +
    "  \"{\" ws (\n" +
    "            string \":\" ws value\n" +
    "    (\",\" ws string \":\" ws value)*\n" +
    "  )? \"}\" ws\n" +
    "array  ::=\n" +
    "  \"[\" ws (\n" +
    "            value\n" +
    "    (\",\" ws value)*\n" +
    "  )? \"]\" ws\n" +
    "string ::=\n" +
    "  \"\\\"\" (\n" +
    "    [^\"\\\\\\x7F\\x00-\\x1F] |\n" +
    "    \"\\\\\" ([\"\\\\bfnrt] | \"u\" [0-9a-fA-F]{4})\n" +
    "  )* \"\\\"\" ws\n" +
    "number ::= (\"-\"? ([0-9] | [1-9] [0-9]{0,15})) (\".\" [0-9]+)? ([eE] [-+]? [1-9] [0-9]{0,15})? ws\n" +
    "ws ::= | \" \" | \"\\n\" [ \\t]{0,20}\n"

  const CaptionText := " In one sentence, write a descriptive caption for this image.\n"
  const GenericInstructionLead := " Use this style of JSON object formatting to give your answer if you think the user is asking you to perform an action: "
  const SpecificInstructionLead := "The user is asking you to use the style of this JSON object formatting to complete the parameters for the specific function named "
  const SpecificInstructionTail := " in the following format: "
  const GenericFunctionName := "insert the name of the function you want to call"

  /** `{} if chatcompl_adapter is None else chatcompl_adapter` */
  function GlobalAdapter(env: Env): Params {
    if env.adapter.None? then map[] else env.adapter.value
  }

  /** The outcome of a transform as a method reports it: no exception and the new mapping,
      or the exception raised. */
  predicate Reflects(r: Result<Params>, raised: Option<PyError>, now: Params) {
    match r
    case Ok(p) => raised == None && now == p
    case Err(e) => raised == Some(e)
  }

  // ---------------------------------------------------------------- common stage

  function Max3(a: real, b: real, c: real): (m: real)
    ensures a <= m && b <= m && c <= m
    ensures m == a || m == b || m == c
  {
    if a >= b && a >= c then a else if b >= c then b else c
  }

  /** `float(genparams.get(key, 1.0))` for one repetition-penalty alias. */
  function Penalty(g: Params, env: Env, key: string): Result<real> {
    ToFloat(env.parsers, Get(g, key, Float(1.0)))
  }

  /** The three repetition-penalty aliases folded into `rep_pen`. */
  function AliasedPenalties(g: Params, env: Env): Result<Params> {
    var rp1 :- Penalty(g, env, "repeat_penalty");
    var rp2 :- Penalty(g, env, "repetition_penalty");
    var rp3 :- Penalty(g, env, "rep_pen");
    Ok(g["rep_pen" := Float(Max3(rp1, rp2, rp3))])
  }

  /** The legacy `use_default_badwordsids` flag copied to an absent `ban_eos_token`. */
  function BanEosReconciled(g: Params): Params {
    if "use_default_badwordsids" in g && "ban_eos_token" !in g
    then g["ban_eos_token" := g["use_default_badwordsids"]]
    else g
  }

  // ---------------------------------------------------------------- format 1

  function BasicApplied(g: Params, env: Env): Result<Params> {
    var g1 := g["prompt" := Get(g, "text", Str(""))];
    var topK :- ToInt(env.parsers, Get(g1, "top_k", Int(120)));
    var g2 := g1["top_k" := Int(topK)];
    var maxLen :- ToInt(env.parsers, Get(g2, "max", Int(200)));
    Ok(g2["max_length" := Int(maxLen)])
  }

  // ---------------------------------------------------------------- formats 3, 4, 7

  /** `stop` normalised to a list: a list as it is, any other value wrapped, `[]` if absent. */
  function StopList(stop: Value): Value {
    if stop.List? then stop else List([stop])
  }

  /** The fields every OpenAI-style dialect sets, given the default token budget. */
  function OpenAICommon(g: Params, defaultMax: Value, env: Env): Result<Params> {
    var maxLen :- ToInt(env.parsers, Get(g, "max_tokens", Get(g, "max_completion_tokens", defaultMax)));
    var g1 := g["max_length" := Int(maxLen)];
    var pp :- ToFloat(env.parsers, Get(g1, "presence_penalty", Get(g1, "frequency_penalty", Float(0.0))));
    var g2 := g1["presence_penalty" := Float(pp)];
    var g3 := g2["stop_sequence" := StopList(Get(g2, "stop", List([])))];
    var g4 := g3["sampler_seed" := Int(env.tryParseInt(Get(g3, "seed", Int(-1))))];
    Ok(g4["mirostat" := Get(g4, "mirostat_mode", Int(0))])
  }

  /** The adapter object of formats 3, 4 and 7: the request's own, else the global one. */
  function RequestAdapter(g: Params, env: Env): Value {
    Get(g, "adapter", Dict(GlobalAdapter(env)))
  }

  function OpenAIApplied(g: Params, fmt: int, env: Env): Result<Params>
  {
    var adapter := RequestAdapter(g, env);
    if fmt == OpenAICompletion then OpenAICommon(g, Int(200), env)
    else if !adapter.Dict? then Err(AttributeError)
    else
      var g1 :- OpenAICommon(g, Get(adapter.fields, "max_length", Int(512)), env);
      ChatApplied(g1, adapter.fields, ToolPlan(g1, env))
  }

  // ---------------------------------------------------------------- chat rendering

  /** The adapter's role templates (values as found, defaults where absent). */
  datatype Templates = Templates(
    systemStart: Value, systemEnd: Value,
    userStart: Value, userEnd: Value,
    assistantStart: Value, assistantEnd: Value,
    toolsStart: Value, toolsEnd: Value)

  function ChatTemplates(a: Params): Templates {
    Templates(
      Get(a, "system_start", Str("\n### Instruction:\n")), Get(a, "system_end", Str("")),
      Get(a, "user_start", Str("\n### Instruction:\n")), Get(a, "user_end", Str("")),
      Get(a, "assistant_start", Str("\n### Response:\n")), Get(a, "assistant_end", Str("")),
      Get(a, "tools_start", Str("")), Get(a, "tools_end", Str("")))
  }

  /** The template appended before a message's content; `""` for an unknown role. */
  function RoleStart(role: Value, t: Templates): Value {
    if role == Str("system") then t.systemStart
    else if role == Str("user") then t.userStart
    else if role == Str("assistant") then t.assistantStart
    else if role == Str("tool") then t.toolsStart
    else Str("")
  }

  /** The template appended after a message's content; `""` for an unknown role. */
  function RoleEnd(role: Value, t: Templates): Value {
    if role == Str("system") then t.systemEnd
    else if role == Str("user") then t.userEnd
    else if role == Str("assistant") then t.assistantEnd
    else if role == Str("tool") then t.toolsEnd
    else Str("")
  }

  /** What rendering adds: prompt text, extracted images, and whether tools were injected. */
  datatype Piece = Piece(text: string, images: seq<string>, injected: bool)

  const Empty := Piece("", [], false)

  /** An `image_url` content item: the payload after the first comma of a `data:image` URL. */
  function ImagePayload(iu: Value): Result<Piece> {
    if !Truthy(iu) then Ok(Empty)
    else match iu
      case Dict(u) =>
        if "url" !in u then Err(KeyError)
        else if !Truthy(u["url"]) then Ok(Empty)
        else if !u["url"].Str? then Err(AttributeError)
        else if !("data:image" <= u["url"].s) then Ok(Empty)
        else (match AfterFirst(u["url"].s, ",")
              case None => Err(IndexError)
              case Some(b64) => Ok(Piece("", [b64], false)))
      case _ => Err(TypeError)
  }

  /** One item of a list content. */
  function RenderItem(item: Value): Result<Piece> {
    match item
    case Dict(f) =>
      if "type" !in f then Err(KeyError)
      else if f["type"] == Str("text") then
        if "text" !in f then Err(KeyError)
        else var s :- StrOperand(f["text"]); Ok(Piece(s, [], false))
      else if f["type"] == Str("image_url") then
        if "image_url" !in f then Err(KeyError) else ImagePayload(f["image_url"])
      else Ok(Empty)
    case _ => Err(TypeError)
  }

  /** The first `k` items of a list content, in order. */
  function RenderItems(items: seq<Value>, k: nat): (r: Result<Piece>)
    requires k <= |items|
    ensures r.Ok? ==> !r.value.injected
  {
    if k == 0 then Ok(Empty)
    else
      var acc :- RenderItems(items, k - 1);
      var p :- RenderItem(items[k - 1]);
      Ok(Piece(acc.text + p.text, acc.images + p.images, false))
  }

  /** A message's `content`: nothing when falsy, a string verbatim, a list item by item,
      anything else ignored. */
  function RenderContent(c: Value): Result<Piece> {
    if !Truthy(c) then Ok(Empty)
    else match c
      case Str(s) => Ok(Piece(s, [], false))
      case List(xs) => RenderItems(xs, |xs|)
      case _ => Ok(Empty)
  }

  /** The JSON object the tool instruction shows, naming the function `name`. */
  function ResponseTemplate(name: string): Value {
    List([Dict(map[
      "id" := Str("insert an id for the response"),
      "type" := Str("function"),
      "function" := Dict(map[
        "name" := Str(name),
        "arguments" := Dict(map[
          "first property key" := Str("first property value"),
          "second property key" := Str("second property value")])])])])
  }

  /** The function a dict `tool_choice` names; `None` when the lookup raises. */
  function SpecifiedFunction(choice: Value, env: Env): Option<string> {
    if choice.Dict? && "function" in choice.fields && choice.fields["function"].Dict?
    then Some(Format(env.pyStr, Get(choice.fields["function"].fields, "name", Null)))
    else None
  }

  function ToolInstruction(choice: Value, env: Env): string {
    match SpecifiedFunction(choice, env)
    case Some(name) =>
      SpecificInstructionLead + name + SpecificInstructionTail + env.jsonDumps(ResponseTemplate(name))
    case None =>
      GenericInstructionLead + env.jsonDumps(ResponseTemplate(GenericFunctionName))
  }

  /** The text injected after the last user message: `None` when `tools` is empty or
      `tool_choice` is None. */
  function ToolPlan(g: Params, env: Env): Result<Option<string>> {
    var tools := Get(g, "tools", List([]));
    if !Truthy(tools) then Ok(None)
    else if Len(tools).None? then Err(TypeError)
    else if Get(g, "tool_choice", Null) == Null then Ok(None)
    else Ok(Some(env.jsonDumps(tools) + ToolInstruction(g["tool_choice"], env)))
  }

  /** One message: role start, content, injected tools (last user message only), role end.
      `plan` is `ToolPlan` of the request, whose `tools` and `tool_choice` the loop never
      changes; it is consulted, and its exception raised, only for the last user message. */
  function RenderMessage(m: Value, isLast: bool, t: Templates, plan: Result<Option<string>>): Result<Piece> {
    match m
    case Dict(f) =>
      if "role" !in f then Err(KeyError)
      else
        var role := f["role"];
        var start :- StrOperand(RoleStart(role, t));
        var body :- RenderContent(Get(f, "content", Null));
        var tool :- if role == Str("user") && isLast then plan else Ok(None);
        var end :- StrOperand(RoleEnd(role, t));
        Ok(Piece(start + body.text + (if tool.Some? then tool.value else "") + end, body.images, tool.Some?))
    case _ => Err(TypeError)
  }

  /** The first `k` of the messages `msgs`, in order. */
  function RenderPrefix(msgs: seq<Value>, k: nat, t: Templates, plan: Result<Option<string>>): Result<Piece>
    requires k <= |msgs|
  {
    if k == 0 then Ok(Empty)
    else
      var acc :- RenderPrefix(msgs, k - 1, t, plan);
      var p :- RenderMessage(msgs[k - 1], k == |msgs|, t, plan);
      Ok(Piece(acc.text + p.text, acc.images + p.images, acc.injected || p.injected))
  }

  /** What `for message in messages` iterates over: a list's elements; an empty string or
      dict gives no iteration; a non-empty string or dict yields strings, whose `['role']`
      raises TypeError, and any other value is not iterable. */
  function MessageList(v: Value): Result<seq<Value>> {
    if v.List? then Ok(v.items)
    else if v == Str("") || v == Dict(map[]) then Ok([])
    else Err(TypeError)
  }

  /** The fields set when tool calling is injected. */
  function WithTools(g: Params): Params {
    g["temperature" := Float(0.2)]["using_openai_tools" := Bool(true)]["grammar" := Str(JsonArrGrammar)]
  }

  function StrList(xs: seq<string>): (v: Value)
    ensures v.List? && |v.items| == |xs|
    ensures forall i :: 0 <= i < |xs| ==> v.items[i] == Str(xs[i])
  {
    List(seq(|xs|, i requires 0 <= i < |xs| => Str(xs[i])))
  }

  /** `v.strip()`: AttributeError unless `v` is a string. */
  function StripOperand(v: Value): Result<string> {
    if v.Str? then Ok(Strip(v.s)) else Err(AttributeError)
  }

  /** `stop_sequence` is the request's own `stop` list (the same object) exactly when `stop`
      is a list: appending to one appends to the other. */
  predicate StopAliased(g: Params) {
    "stop" in g && g["stop"].List?
  }

  /** Chat stop sequences: both stripped templates when empty, else appended to the list. */
  function ChatStopsMerged(g: Params, t: Templates): Result<Params> {
    var ss := Get(g, "stop_sequence", List([]));
    match Len(ss)
    case None => Err(TypeError)
    case Some(n) =>
      if n == 0 then
        var u :- StripOperand(t.userStart);
        var a :- StripOperand(t.assistantStart);
        Ok(g["stop_sequence" := List([Str(u), Str(a)])])
      else if !ss.List? then Err(AttributeError)
      else
        var u :- StripOperand(t.userStart);
        var a :- StripOperand(t.assistantStart);
        var ext := List(ss.items + [Str(u), Str(a)]);
        var g1 := g["stop_sequence" := ext];
        Ok(if StopAliased(g) then g1["stop" := ext] else g1)
  }

  /** Formats 4 and 7 after the common fields: the messages rendered into `prompt`, with
      `plan` the `ToolPlan` of the same request. */
  function ChatApplied(g: Params, a: Params, plan: Result<Option<string>>): Result<Params> {
    var t := ChatTemplates(a);
    var msgs :- MessageList(Get(g, "messages", List([])));
    var p :- RenderPrefix(msgs, |msgs|, t, plan);
    var close :- StrOperand(t.assistantStart);
    var g1 := if p.injected then WithTools(g) else g;
    var g2 := g1["prompt" := Str(p.text + close)];
    var g3 := if |p.images| > 0 then g2["images" := StrList(p.images)] else g2;
    var g4 :- ChatStopsMerged(g3, t);
    Ok(g4["trim_stop" := Bool(true)])
  }

  // ---------------------------------------------------------------- format 5

  function InterrogateApplied(g: Params, env: Env): Params {
    var g1 := g["images" := List([Get(g, "image", Str(""))])];
    var g2 := g1["max_length" := Int(42)];
    var a := GlobalAdapter(env);
    var u := Get(a, "user_start", Str("### Instruction:"));
    var asst := Get(a, "assistant_start", Str("### Response:"));
    g2["prompt" := Str(Format(env.pyStr, u) + CaptionText + Format(env.pyStr, asst))]
  }

  // ---------------------------------------------------------------- format 6

  /** `if key in options: genparams[field] = options.get(key, default)` */
  function Overlay(g: Params, opts: Value, key: string, field: string, default: Value): Result<Params> {
    var present :- Contains(opts, key);
    if !present then Ok(g)
    else if !opts.Dict? then Err(AttributeError)
    else Ok(g[field := Get(opts.fields, key, default)])
  }

  /** The `seed` option, parsed with `tryparseint`. */
  function OverlaySeed(g: Params, opts: Value, env: Env): Result<Params> {
    var present :- Contains(opts, "seed");
    if !present then Ok(g)
    else if !opts.Dict? then Err(AttributeError)
    else Ok(g["sampler_seed" := Int(env.tryParseInt(Get(opts.fields, "seed", Int(-1))))])
  }

  /** The detokenised `context`, or `""` when detokenisation raises. */
  function ContextText(g: Params, env: Env): string {
    match env.detokenize(Get(g, "context", List([])))
    case Some(s) => s
    case None => ""
  }

  function OllamaUserStart(env: Env): Value {
    Get(GlobalAdapter(env), "user_start", Str("\n\n### Instruction:\n"))
  }

  function OllamaAssistantStart(env: Env): Value {
    Get(GlobalAdapter(env), "assistant_start", Str("\n\n### Response:\n"))
  }

  /** `ollamabodyprompt` */
  function OllamaBody(g: Params, env: Env): string {
    ContextText(g, env) + Format(env.pyStr, OllamaUserStart(env))
    + Format(env.pyStr, Get(g, "prompt", Str(""))) + Format(env.pyStr, OllamaAssistantStart(env))
  }

  /** The options sub-map sets `stop`, so `stop_sequence` is that list object. */
  predicate OptionsStop(opts: Value) {
    opts.Dict? && "stop" in opts.fields
  }

  /** Both stripped templates appended to `stop_sequence`, and to the list it is. */
  function OllamaStopsAppended(g: Params, opts: Value, env: Env): Result<Params> {
    var ss := Get(g, "stop_sequence", List([]));
    if !ss.List? then Err(AttributeError)
    else
      var u :- StripOperand(OllamaUserStart(env));
      var a :- StripOperand(OllamaAssistantStart(env));
      var ext := List(ss.items + [Str(u), Str(a)]);
      var g1 := g["stop_sequence" := ext];
      if OptionsStop(opts) then Ok(g1["options" := Dict(opts.fields["stop" := ext])])
      else if "stop" in g then Ok(g1["stop" := ext])
      else Ok(g1)
  }

  function OllamaApplied(g: Params, env: Env): Result<Params> {
    var sys := Get(g, "system", Str(""));
    var body := OllamaBody(g, env);
    var opts := Get(g, "options", Dict(map[]));
    var g1 := g["stop_sequence" := Get(g, "stop", List([]))];
    var g2 :- Overlay(g1, opts, "num_predict", "max_length", Int(200));
    var g3 :- Overlay(g2, opts, "num_ctx", "max_context_length", env.maxctx);
    var g4 :- Overlay(g3, opts, "temperature", "temperature", Float(0.75));
    var g5 :- Overlay(g4, opts, "top_k", "top_k", Int(100));
    var g6 :- Overlay(g5, opts, "top_p", "top_p", Float(0.92));
    var g7 :- OverlaySeed(g6, opts, env);
    var g8 :- Overlay(g7, opts, "stop", "stop_sequence", List([]));
    var g9 :- OllamaStopsAppended(g8, opts, env);
    var g10 := g9["trim_stop" := Bool(true)]["ollamasysprompt" := sys]["ollamabodyprompt" := Str(body)];
    var whole :- if sys.Str? then Ok(sys.s + body) else Err(TypeError);
    Ok(g10["prompt" := Str(whole)])
  }

  // ---------------------------------------------------------------- the whole transform

  /** `transform_genparams(genparams, api_format)` as a function of the request. */
  function TransformGenParams(g: Params, fmt: int, env: Env): Result<Params> {
    var g1 :- AliasedPenalties(g, env);
    FormatApplied(BanEosReconciled(g1), fmt, env)
  }

  /** The dialect-specific part; format 2 and unknown formats change nothing. */
  function FormatApplied(g: Params, fmt: int, env: Env): Result<Params> {
    if fmt == Basic then BasicApplied(g, env)
    else if fmt == OpenAICompletion || fmt == OpenAIChat || fmt == OllamaChat then OpenAIApplied(g, fmt, env)
    else if fmt == Interrogate then Ok(InterrogateApplied(g, env))
    else if fmt == OllamaGenerate then OllamaApplied(g, env)
    else Ok(g)
  }

  // ---------------------------------------------------------------- the loops

  /** An exception raised by one content item ends the whole rendering with it. */
  lemma {:induction false} ItemErrorPropagates(items: seq<Value>, i: nat, k: nat)
    requires i <= k <= |items| && RenderItems(items, i).Err?
    ensures RenderItems(items, k) == RenderItems(items, i)
    decreases k
  {
    if k > i {
      ItemErrorPropagates(items, i, k - 1);
    }
  }

  /** An exception raised by one message ends the whole rendering with it. */
  lemma {:induction false} MessageErrorPropagates(msgs: seq<Value>, i: nat, k: nat, t: Templates, plan: Result<Option<string>>)
    requires i <= k <= |msgs| && RenderPrefix(msgs, i, t, plan).Err?
    ensures RenderPrefix(msgs, k, t, plan) == RenderPrefix(msgs, i, t, plan)
    decreases k
  {
    if k > i {
      MessageErrorPropagates(msgs, i, k - 1, t, plan);
      PrefixErrorStays(msgs, k - 1, t, plan);
    }
  }

  /** A rendering that has failed stays failed when one more message is added. */
  lemma PrefixErrorStays(msgs: seq<Value>, k: nat, t: Templates, plan: Result<Option<string>>)
    requires k < |msgs| && RenderPrefix(msgs, k, t, plan).Err?
    ensures RenderPrefix(msgs, k + 1, t, plan) == RenderPrefix(msgs, k, t, plan)
  {
  }

  /** One more message extends the rendering, or ends it with that message's exception. */
  lemma PrefixGrows(msgs: seq<Value>, k: nat, t: Templates, plan: Result<Option<string>>, acc: Piece, one: Result<Piece>)
    requires k < |msgs| && RenderPrefix(msgs, k, t, plan) == Ok(acc)
    requires RenderMessage(msgs[k], k + 1 == |msgs|, t, plan) == one
    ensures one.Err? ==> RenderPrefix(msgs, k + 1, t, plan) == Err(one.error)
    ensures one.Ok? ==>
      (RenderPrefix(msgs, k + 1, t, plan)
       == Ok(Piece(acc.text + one.value.text, acc.images + one.value.images, acc.injected || one.value.injected)))
  {
  }

  /** The inner `for item in curr_content` loop. */
  method RenderItemList(items: seq<Value>) returns (r: Result<Piece>)
    ensures r == RenderItems(items, |items|)
  {
    var text := "";
    var images: seq<string> := [];
    var i := 0;
    while i < |items|
      invariant 0 <= i <= |items|
      invariant RenderItems(items, i) == Ok(Piece(text, images, false))
    {
      var p := RenderItem(items[i]);
      if p.Err? {
        ItemErrorPropagates(items, i + 1, |items|);
        return Err(p.error);
      }
      text := text + p.value.text;
      images := images + p.value.images;
      i := i + 1;
    }
    return Ok(Piece(text, images, false));
  }

  /** The body of the message loop for one message. */
  method RenderOne(message: Value, isLast: bool, t: Templates, plan: Result<Option<string>>) returns (r: Result<Piece>)
    ensures r == RenderMessage(message, isLast, t, plan)
  {
    if !message.Dict? {
      return Err(TypeError);
    }
    if "role" !in message.fields {
      return Err(KeyError);
    }
    var role := message.fields["role"];
    var start := StrOperand(RoleStart(role, t));
    if start.Err? {
      return Err(start.error);
    }
    var piece := start.value;
    var content := Get(message.fields, "content", Null);
    var body: Result<Piece>;
    if !Truthy(content) {
      body := Ok(Empty);
    } else if content.Str? {
      body := Ok(Piece(content.s, [], false));
    } else if content.List? {
      body := RenderItemList(content.items);
    } else {
      body := Ok(Empty);
    }
    assert body == RenderContent(content);
    if body.Err? {
      return Err(body.error);
    }
    var tool: Option<string> := None;
    if role == Str("user") && isLast {
      if plan.Err? {
        return Err(plan.error);
      }
      tool := plan.value;
    }
    var end := StrOperand(RoleEnd(role, t));
    if end.Err? {
      return Err(end.error);
    }
    piece := piece + body.value.text + (if tool.Some? then tool.value else "") + end.value;
    return Ok(Piece(piece, body.value.images, tool.Some?));
  }

  /** The `for message in messages_array` loop: it accumulates the prompt text and the
      extracted images, and injects the tools after the last user message. */
  method RenderMessages(msgs: seq<Value>, t: Templates, plan: Result<Option<string>>) returns (r: Result<Piece>)
    ensures r == RenderPrefix(msgs, |msgs|, t, plan)
  {
    var text := "";
    var images: seq<string> := [];
    var injected := false;
    var index := 0;
    while index < |msgs|
      invariant 0 <= index <= |msgs|
      invariant RenderPrefix(msgs, index, t, plan) == Ok(Piece(text, images, injected))
    {
      var message := msgs[index];
      var isLast := index + 1 == |msgs|;
      var one := RenderOne(message, isLast, t, plan);
      PrefixGrows(msgs, index, t, plan, Piece(text, images, injected), one);
      if one.Err? {
        MessageErrorPropagates(msgs, index + 1, |msgs|, t, plan);
        return Err(one.error);
      }
      text := text + one.value.text;
      images := images + one.value.images;
      injected := injected || one.value.injected;
      index := index + 1;
    }
    return Ok(Piece(text, images, injected));
  }

  // ---------------------------------------------------------------- the request mapping

  /** The request mapping that `transform_genparams` updates in place. */
  class GenParams {
    var params: Params

    constructor (request: Params)
      ensures params == request
    {
      params := request;
    }

    /** `transform_genparams(genparams, api_format)` */
    method Transform(fmt: int, env: Env) returns (raised: Option<PyError>)
      modifies this
      ensures Reflects(TransformGenParams(old(params), fmt, env), raised, params)
    {
      raised := AliasPenalties(env);
      if raised.Some? {
        return;
      }
      ReconcileBanEos();
      if fmt == Basic {
        raised := ApplyBasic(env);
      } else if fmt == Kai {
      } else if fmt == OpenAICompletion || fmt == OpenAIChat || fmt == OllamaChat {
        raised := ApplyOpenAI(fmt, env);
      } else if fmt == Interrogate {
        ApplyInterrogate(env);
      } else if fmt == OllamaGenerate {
        raised := ApplyOllama(env);
      }
    }

    method AliasPenalties(env: Env) returns (raised: Option<PyError>)
      modifies this
      ensures Reflects(AliasedPenalties(old(params), env), raised, params)
    {
      var rp1 := Penalty(params, env, "repeat_penalty");
      if rp1.Err? {
        return Some(rp1.error);
      }
      var rp2 := Penalty(params, env, "repetition_penalty");
      if rp2.Err? {
        return Some(rp2.error);
      }
      var rp3 := Penalty(params, env, "rep_pen");
      if rp3.Err? {
        return Some(rp3.error);
      }
      params := params["rep_pen" := Float(Max3(rp1.value, rp2.value, rp3.value))];
      return None;
    }

    method ReconcileBanEos()
      modifies this
      ensures params == BanEosReconciled(old(params))
    {
      if "use_default_badwordsids" in params && "ban_eos_token" !in params {
        params := params["ban_eos_token" := params["use_default_badwordsids"]];
      }
    }

    method ApplyBasic(env: Env) returns (raised: Option<PyError>)
      modifies this
      ensures Reflects(BasicApplied(old(params), env), raised, params)
    {
      params := params["prompt" := Get(params, "text", Str(""))];
      var topK := ToInt(env.parsers, Get(params, "top_k", Int(120)));
      if topK.Err? {
        return Some(topK.error);
      }
      params := params["top_k" := Int(topK.value)];
      var maxLen := ToInt(env.parsers, Get(params, "max", Int(200)));
      if maxLen.Err? {
        return Some(maxLen.error);
      }
      params := params["max_length" := Int(maxLen.value)];
      return None;
    }

    method ApplyOpenAI(fmt: int, env: Env) returns (raised: Option<PyError>)
      requires fmt == OpenAICompletion || fmt == OpenAIChat || fmt == OllamaChat
      modifies this
      ensures Reflects(OpenAIApplied(old(params), fmt, env), raised, params)
    {
      var adapter := RequestAdapter(params, env);
      var defaultMax: Value;
      if fmt == OpenAICompletion {
        defaultMax := Int(200);
      } else if adapter.Dict? {
        defaultMax := Get(adapter.fields, "max_length", Int(512));
      } else {
        return Some(AttributeError);
      }
      raised := ApplyOpenAICommon(defaultMax, env);
      if raised.Some? {
        return;
      }
      if fmt != OpenAICompletion {
        raised := ApplyChat(adapter.fields, env);
      }
    }

    /** The fields every OpenAI-style dialect sets. */
    method ApplyOpenAICommon(defaultMax: Value, env: Env) returns (raised: Option<PyError>)
      modifies this
      ensures Reflects(OpenAICommon(old(params), defaultMax, env), raised, params)
    {
      var maxLen := ToInt(env.parsers, Get(params, "max_tokens", Get(params, "max_completion_tokens", defaultMax)));
      if maxLen.Err? {
        return Some(maxLen.error);
      }
      params := params["max_length" := Int(maxLen.value)];
      var pp := ToFloat(env.parsers, Get(params, "presence_penalty", Get(params, "frequency_penalty", Float(0.0))));
      if pp.Err? {
        return Some(pp.error);
      }
      params := params["presence_penalty" := Float(pp.value)];
      var stop := Get(params, "stop", List([]));
      if stop.List? {
        params := params["stop_sequence" := stop];
      } else {
        params := params["stop_sequence" := List([stop])];
      }
      params := params["sampler_seed" := Int(env.tryParseInt(Get(params, "seed", Int(-1))))];
      params := params["mirostat" := Get(params, "mirostat_mode", Int(0))];
      return None;
    }

    /** Formats 4 and 7: render the messages and merge the stop sequences. */
    method ApplyChat(a: Params, env: Env) returns (raised: Option<PyError>)
      modifies this
      ensures Reflects(ChatApplied(old(params), a, ToolPlan(old(params), env)), raised, params)
    {
      var t := ChatTemplates(a);
      var msgs := MessageList(Get(params, "messages", List([])));
      if msgs.Err? {
        return Some(msgs.error);
      }
      var rendered := RenderMessages(msgs.value, t, ToolPlan(params, env));
      if rendered.Err? {
        return Some(rendered.error);
      }
      var close := StrOperand(t.assistantStart);
      if close.Err? {
        return Some(close.error);
      }
      if rendered.value.injected {
        params := params["temperature" := Float(0.2)];
        params := params["using_openai_tools" := Bool(true)];
        params := params["grammar" := Str(JsonArrGrammar)];
      }
      params := params["prompt" := Str(rendered.value.text + close.value)];
      if |rendered.value.images| > 0 {
        params := params["images" := StrList(rendered.value.images)];
      }
      raised := MergeChatStops(t);
      if raised.Some? {
        return;
      }
      params := params["trim_stop" := Bool(true)];
      return None;
    }

    /** The stop sequences of formats 4 and 7, appended through the shared list. */
    method MergeChatStops(t: Templates) returns (raised: Option<PyError>)
      modifies this
      ensures Reflects(ChatStopsMerged(old(params), t), raised, params)
    {
      var aliased := StopAliased(params);
      var ss := Get(params, "stop_sequence", List([]));
      var n := Len(ss);
      if n.None? {
        return Some(TypeError);
      }
      var u := StripOperand(t.userStart);
      if n.value == 0 {
        if u.Err? {
          return Some(u.error);
        }
        var asst := StripOperand(t.assistantStart);
        if asst.Err? {
          return Some(asst.error);
        }
        params := params["stop_sequence" := List([Str(u.value), Str(asst.value)])];
      } else {
        if !ss.List? {
          return Some(AttributeError);
        }
        if u.Err? {
          return Some(u.error);
        }
        var asst := StripOperand(t.assistantStart);
        if asst.Err? {
          return Some(asst.error);
        }
        var ext := List(ss.items + [Str(u.value), Str(asst.value)]);
        params := params["stop_sequence" := ext];
        if aliased {
          params := params["stop" := ext];
        }
      }
      return None;
    }

    method ApplyInterrogate(env: Env)
      modifies this
      ensures params == InterrogateApplied(old(params), env)
    {
      params := params["images" := List([Get(params, "image", Str(""))])];
      params := params["max_length" := Int(42)];
      var a := GlobalAdapter(env);
      var u := Get(a, "user_start", Str("### Instruction:"));
      var asst := Get(a, "assistant_start", Str("### Response:"));
      params := params["prompt" := Str(Format(env.pyStr, u) + CaptionText + Format(env.pyStr, asst))];
    }

    /** `if key in options: genparams[field] = options.get(key, default)` */
    method OverlayOption(opts: Value, key: string, field: string, default: Value) returns (raised: Option<PyError>)
      modifies this
      ensures Reflects(Overlay(old(params), opts, key, field, default), raised, params)
    {
      var present := Contains(opts, key);
      if present.Err? {
        return Some(present.error);
      }
      if present.value {
        if !opts.Dict? {
          return Some(AttributeError);
        }
        params := params[field := Get(opts.fields, key, default)];
      }
      return None;
    }

    method ApplyOllama(env: Env) returns (raised: Option<PyError>)
      modifies this
      ensures Reflects(OllamaApplied(old(params), env), raised, params)
    {
      var sys := Get(params, "system", Str(""));
      var body := OllamaBody(params, env);
      var opts := Get(params, "options", Dict(map[]));
      params := params["stop_sequence" := Get(params, "stop", List([]))];
      raised := OverlayOption(opts, "num_predict", "max_length", Int(200));
      if raised.Some? { return; }
      raised := OverlayOption(opts, "num_ctx", "max_context_length", env.maxctx);
      if raised.Some? { return; }
      raised := OverlayOption(opts, "temperature", "temperature", Float(0.75));
      if raised.Some? { return; }
      raised := OverlayOption(opts, "top_k", "top_k", Int(100));
      if raised.Some? { return; }
      raised := OverlayOption(opts, "top_p", "top_p", Float(0.92));
      if raised.Some? { return; }
      var seedPresent := Contains(opts, "seed");
      if seedPresent.Err? {
        return Some(seedPresent.error);
      }
      if seedPresent.value {
        if !opts.Dict? {
          return Some(AttributeError);
        }
        params := params["sampler_seed" := Int(env.tryParseInt(Get(opts.fields, "seed", Int(-1))))];
      }
      raised := OverlayOption(opts, "stop", "stop_sequence", List([]));
      if raised.Some? { return; }
      var stopGiven := "stop" in params;
      var ss := Get(params, "stop_sequence", List([]));
      if !ss.List? {
        return Some(AttributeError);
      }
      var u := StripOperand(OllamaUserStart(env));
      if u.Err? {
        return Some(u.error);
      }
      var asst := StripOperand(OllamaAssistantStart(env));
      if asst.Err? {
        return Some(asst.error);
      }
      var ext := List(ss.items + [Str(u.value), Str(asst.value)]);
      params := params["stop_sequence" := ext];
      if OptionsStop(opts) {
        params := params["options" := Dict(opts.fields["stop" := ext])];
      } else if stopGiven {
        params := params["stop" := ext];
      }
      params := params["trim_stop" := Bool(true)];
      params := params["ollamasysprompt" := sys];
      params := params["ollamabodyprompt" := Str(body)];
      if !sys.Str? {
        return Some(TypeError);
      }
      params := params["prompt" := Str(sys.s + body)];
      return None;
    }
  }
}
