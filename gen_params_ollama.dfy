/** Properties of format 6 (Ollama `/api/generate`): the sparse overlay of `options`, the
    stop sequences and the lists they share, the assembled prompt, and the parts of the
    environment the result does not depend on. */
module GenParamsOllama {
  import opened Py
  import opened GenParams
  import opened GenParamsProps

  /** The five options of format 6 that are copied as they are, each with the key of the
      request it sets. */
  predicate PlainOption(key: string, field: string) {
    (key == "num_predict" && field == "max_length")
    || (key == "num_ctx" && field == "max_context_length")
    || (key == "temperature" && field == "temperature")
    || (key == "top_k" && field == "top_k")
    || (key == "top_p" && field == "top_p")
  }

  /** `r[field]` is the option `key` when `options` has it, and as in `g` otherwise. */
  predicate OptionSet(g: Params, r: Params, opts: Value, key: string, field: string) {
    Contains(opts, key).Ok?
    && (Contains(opts, key).value ==> opts.Dict? && key in opts.fields && field in r && r[field] == opts.fields[key])
    && (!Contains(opts, key).value ==> SameAt(g, r, field))
  }

  /** The named intermediate states of format 6. */
  lemma Stages(g: Params, env: Env)
    returns (opts: Value, g1: Params, g2: Params, g3: Params, g4: Params, g5: Params,
             g6: Params, g7: Params, g8: Params, g9: Params)
    requires OllamaApplied(g, env).Ok?
    ensures opts == Get(g, "options", Dict(map[]))
    ensures g1 == g["stop_sequence" := Get(g, "stop", List([]))]
    ensures Overlay(g1, opts, "num_predict", "max_length", Int(200)) == Ok(g2)
    ensures Overlay(g2, opts, "num_ctx", "max_context_length", env.maxctx) == Ok(g3)
    ensures Overlay(g3, opts, "temperature", "temperature", Float(0.75)) == Ok(g4)
    ensures Overlay(g4, opts, "top_k", "top_k", Int(100)) == Ok(g5)
    ensures Overlay(g5, opts, "top_p", "top_p", Float(0.92)) == Ok(g6)
    ensures OverlaySeed(g6, opts, env) == Ok(g7)
    ensures Overlay(g7, opts, "stop", "stop_sequence", List([])) == Ok(g8)
    ensures OllamaStopsAppended(g8, opts, env) == Ok(g9)
    ensures var sys := Get(g, "system", Str(""));
      sys.Str? && OllamaApplied(g, env).value == Finished(g9, sys.s, OllamaBody(g, env))
  {
    opts := Get(g, "options", Dict(map[]));
    g1 := g["stop_sequence" := Get(g, "stop", List([]))];
    g2 := Overlay(g1, opts, "num_predict", "max_length", Int(200)).value;
    g3 := Overlay(g2, opts, "num_ctx", "max_context_length", env.maxctx).value;
    g4 := Overlay(g3, opts, "temperature", "temperature", Float(0.75)).value;
    g5 := Overlay(g4, opts, "top_k", "top_k", Int(100)).value;
    g6 := Overlay(g5, opts, "top_p", "top_p", Float(0.92)).value;
    g7 := OverlaySeed(g6, opts, env).value;
    g8 := Overlay(g7, opts, "stop", "stop_sequence", List([])).value;
    g9 := OllamaStopsAppended(g8, opts, env).value;
  }

  /** The four keys format 6 writes last. */
  function Finished(g9: Params, sys: string, body: string): Params {
    g9["trim_stop" := Bool(true)]["ollamasysprompt" := Str(sys)]["ollamabodyprompt" := Str(body)]
      ["prompt" := Str(sys + body)]
  }

  lemma FinishedKeeps(g9: Params, sys: string, body: string, k: string)
    requires k !in {"trim_stop", "ollamasysprompt", "ollamabodyprompt", "prompt"}
    ensures SameAt(g9, Finished(g9, sys, body), k)
  {
  }

  /** One overlay step either sets `f` from the option or leaves it alone. */
  lemma OverlayStep(g: Params, opts: Value, key: string, field: string, default: Value, f: string)
    requires Overlay(g, opts, key, field, default).Ok?
    ensures f == field ==> OptionSet(g, Overlay(g, opts, key, field, default).value, opts, key, f)
    ensures f != field ==> SameAt(g, Overlay(g, opts, key, field, default).value, f)
  {
  }

  /** The seed step sets `sampler_seed` from the parsed option, or leaves it alone. */
  lemma SeedStep(g: Params, opts: Value, env: Env)
    requires OverlaySeed(g, opts, env).Ok?
    ensures var r := OverlaySeed(g, opts, env).value;
      Contains(opts, "seed").Ok?
      && (Contains(opts, "seed").value ==>
            opts.Dict? && "seed" in opts.fields
            && "sampler_seed" in r && r["sampler_seed"] == Int(env.tryParseInt(opts.fields["seed"])))
      && (!Contains(opts, "seed").value ==> SameAt(g, r, "sampler_seed"))
  {
  }

  lemma SeedKeeps(g: Params, opts: Value, env: Env, f: string)
    requires OverlaySeed(g, opts, env).Ok? && f != "sampler_seed"
    ensures SameAt(g, OverlaySeed(g, opts, env).value, f)
  {
  }

  lemma StopsAppendedKeeps(g: Params, opts: Value, env: Env, f: string)
    requires OllamaStopsAppended(g, opts, env).Ok? && f !in {"stop_sequence", "options", "stop"}
    ensures SameAt(g, OllamaStopsAppended(g, opts, env).value, f)
  {
    var ss := Get(g, "stop_sequence", List([]));
    var ext := List(ss.items + [Str(StripOperand(OllamaUserStart(env)).value),
                               Str(StripOperand(OllamaAssistantStart(env)).value)]);
    var g1 := g["stop_sequence" := ext];
    assert SameAt(g, g1, f);
    if OptionsStop(opts) {
      assert OllamaStopsAppended(g, opts, env).value == g1["options" := Dict(opts.fields["stop" := ext])];
    } else if "stop" in g {
      assert OllamaStopsAppended(g, opts, env).value == g1["stop" := ext];
    }
  }

  /** Format 6 copies each of the five plain options that is present into its own key
      and leaves that key alone when the option is absent. */
  lemma PlainOptionApplied(g: Params, env: Env, key: string, field: string)
    requires OllamaApplied(g, env).Ok? && PlainOption(key, field)
    ensures OptionSet(g, OllamaApplied(g, env).value, Get(g, "options", Dict(map[])), key, field)
  {
    var opts, g1, g2, g3, g4, g5, g6, g7, g8, g9 := Stages(g, env);
    var sys := Get(g, "system", Str("")).s;
    PlainFieldsDistinct(key, field);
    assert SameAt(g, g1, field);
    OverlayStep(g1, opts, "num_predict", "max_length", Int(200), field);
    OverlayStep(g2, opts, "num_ctx", "max_context_length", env.maxctx, field);
    OverlayStep(g3, opts, "temperature", "temperature", Float(0.75), field);
    OverlayStep(g4, opts, "top_k", "top_k", Int(100), field);
    OverlayStep(g5, opts, "top_p", "top_p", Float(0.92), field);
    SeedKeeps(g6, opts, env, field);
    OverlayStep(g7, opts, "stop", "stop_sequence", List([]), field);
    StopsAppendedKeeps(g8, opts, env, field);
    FinishedKeeps(g9, sys, OllamaBody(g, env), field);
  }

  /** The `seed` option is parsed with `tryparseint` into `sampler_seed`. */
  lemma SeedApplied(g: Params, env: Env)
    requires OllamaApplied(g, env).Ok?
    ensures var opts, r := Get(g, "options", Dict(map[])), OllamaApplied(g, env).value;
      Contains(opts, "seed").Ok?
      && (Contains(opts, "seed").value ==>
            opts.Dict? && "seed" in opts.fields
            && "sampler_seed" in r && r["sampler_seed"] == Int(env.tryParseInt(opts.fields["seed"])))
      && (!Contains(opts, "seed").value ==> SameAt(g, r, "sampler_seed"))
  {
    var opts, g1, g2, g3, g4, g5, g6, g7, g8, g9 := Stages(g, env);
    var sys := Get(g, "system", Str("")).s;
    var f := "sampler_seed";
    assert f !in {"stop_sequence", "options", "stop"};
    assert f !in {"trim_stop", "ollamasysprompt", "ollamabodyprompt", "prompt"};
    assert SameAt(g, g1, f);
    OverlayStep(g1, opts, "num_predict", "max_length", Int(200), f);
    OverlayStep(g2, opts, "num_ctx", "max_context_length", env.maxctx, f);
    OverlayStep(g3, opts, "temperature", "temperature", Float(0.75), f);
    OverlayStep(g4, opts, "top_k", "top_k", Int(100), f);
    OverlayStep(g5, opts, "top_p", "top_p", Float(0.92), f);
    SeedStep(g6, opts, env);
    OverlayStep(g7, opts, "stop", "stop_sequence", List([]), f);
    StopsAppendedKeeps(g8, opts, env, f);
    FinishedKeeps(g9, sys, OllamaBody(g, env), f);
  }

  /** The list `stop_sequence` ends up as: `base` with both stripped templates appended. */
  function Extended(base: Value, env: Env): Value
    requires base.List? && OllamaUserStart(env).Str? && OllamaAssistantStart(env).Str?
  {
    List(base.items + [Str(Strip(OllamaUserStart(env).s)), Str(Strip(OllamaAssistantStart(env).s))])
  }

  /** The appending step alone, on the list `stop_sequence` already holds. */
  lemma StopsAppendedValue(g: Params, opts: Value, env: Env)
    requires OllamaStopsAppended(g, opts, env).Ok?
    ensures var ss, r := Get(g, "stop_sequence", List([])), OllamaStopsAppended(g, opts, env).value;
      ss.List? && OllamaUserStart(env).Str? && OllamaAssistantStart(env).Str?
      && "stop_sequence" in r && r["stop_sequence"] == Extended(ss, env)
      && (OptionsStop(opts) ==>
            "options" in r && r["options"] == Dict(opts.fields["stop" := Extended(ss, env)]) && SameAt(g, r, "stop"))
      && (!OptionsStop(opts) && "stop" in g ==>
            "stop" in r && r["stop"] == Extended(ss, env) && SameAt(g, r, "options"))
      && (!OptionsStop(opts) && "stop" !in g ==> SameAt(g, r, "stop") && SameAt(g, r, "options"))
  {
    var ss := Get(g, "stop_sequence", List([]));
    var ext := Extended(ss, env);
    var g1 := g["stop_sequence" := ext];
    assert "stop" != "stop_sequence" && "options" != "stop_sequence" && "options" != "stop";
    if OptionsStop(opts) {
      assert OllamaStopsAppended(g, opts, env).value == g1["options" := Dict(opts.fields["stop" := ext])];
    } else if "stop" in g {
      assert OllamaStopsAppended(g, opts, env).value == g1["stop" := ext];
    } else {
      assert OllamaStopsAppended(g, opts, env).value == g1;
    }
  }

  /** Format 6 stop sequences: the options' `stop` list when it has one, else the request's
      `stop` (or a new empty list), with the stripped user and assistant starts appended;
      the same list object is what `options["stop"]`, or else the request's `stop`, ends
      up holding. */
  lemma OllamaStops(g: Params, env: Env)
    requires OllamaApplied(g, env).Ok?
    ensures var opts, r := Get(g, "options", Dict(map[])), OllamaApplied(g, env).value;
      var base := if OptionsStop(opts) then opts.fields["stop"] else Get(g, "stop", List([]));
      base.List? && OllamaUserStart(env).Str? && OllamaAssistantStart(env).Str?
      && "stop_sequence" in r && r["stop_sequence"] == Extended(base, env)
      && (OptionsStop(opts) ==>
            "options" in r && r["options"] == Dict(opts.fields["stop" := Extended(base, env)])
            && SameAt(g, r, "stop"))
      && (!OptionsStop(opts) ==>
            SameAt(g, r, "options")
            && ("stop" in g ==> "stop" in r && r["stop"] == Extended(base, env))
            && ("stop" !in g ==> "stop" !in r))
  {
    var opts, g1, g2, g3, g4, g5, g6, g7, g8, g9 := Stages(g, env);
    var sys := Get(g, "system", Str("")).s;
    StopKeysApart();
    StopsOfStages(g, env, opts, g1, g2, g3, g4, g5, g6, g7, g8);
    StopsAppendedValue(g8, opts, env);
    FinishedKeeps(g9, sys, OllamaBody(g, env), "stop_sequence");
    FinishedKeeps(g9, sys, OllamaBody(g, env), "options");
    FinishedKeeps(g9, sys, OllamaBody(g, env), "stop");
  }

  /** Before the appending step: `stop_sequence` holds the base list, and neither
      `options` nor `stop` has changed. */
  lemma StopsOfStages(g: Params, env: Env, opts: Value, g1: Params, g2: Params, g3: Params,
                      g4: Params, g5: Params, g6: Params, g7: Params, g8: Params)
    requires opts == Get(g, "options", Dict(map[]))
    requires g1 == g["stop_sequence" := Get(g, "stop", List([]))]
    requires Overlay(g1, opts, "num_predict", "max_length", Int(200)) == Ok(g2)
    requires Overlay(g2, opts, "num_ctx", "max_context_length", env.maxctx) == Ok(g3)
    requires Overlay(g3, opts, "temperature", "temperature", Float(0.75)) == Ok(g4)
    requires Overlay(g4, opts, "top_k", "top_k", Int(100)) == Ok(g5)
    requires Overlay(g5, opts, "top_p", "top_p", Float(0.92)) == Ok(g6)
    requires OverlaySeed(g6, opts, env) == Ok(g7)
    requires Overlay(g7, opts, "stop", "stop_sequence", List([])) == Ok(g8)
    ensures OptionsStop(opts) ==> "stop_sequence" in g8 && g8["stop_sequence"] == opts.fields["stop"]
    ensures !OptionsStop(opts) ==> "stop_sequence" in g8 && g8["stop_sequence"] == Get(g, "stop", List([]))
    ensures SameAt(g, g8, "options") && SameAt(g, g8, "stop")
  {
    StopKeysApart();
    var f := "stop_sequence";
    OverlayStep(g1, opts, "num_predict", "max_length", Int(200), f);
    OverlayStep(g2, opts, "num_ctx", "max_context_length", env.maxctx, f);
    OverlayStep(g3, opts, "temperature", "temperature", Float(0.75), f);
    OverlayStep(g4, opts, "top_k", "top_k", Int(100), f);
    OverlayStep(g5, opts, "top_p", "top_p", Float(0.92), f);
    SeedKeeps(g6, opts, env, f);
    OverlayStep(g7, opts, "stop", "stop_sequence", List([]), f);
    assert "stop_sequence" in g7 && g7["stop_sequence"] == Get(g, "stop", List([]));
    assert SameAt(g, g1, "options") && SameAt(g, g1, "stop");
    OverlayStep(g1, opts, "num_predict", "max_length", Int(200), "options");
    OverlayStep(g2, opts, "num_ctx", "max_context_length", env.maxctx, "options");
    OverlayStep(g3, opts, "temperature", "temperature", Float(0.75), "options");
    OverlayStep(g4, opts, "top_k", "top_k", Int(100), "options");
    OverlayStep(g5, opts, "top_p", "top_p", Float(0.92), "options");
    SeedKeeps(g6, opts, env, "options");
    OverlayStep(g7, opts, "stop", "stop_sequence", List([]), "options");
    OverlayStep(g1, opts, "num_predict", "max_length", Int(200), "stop");
    OverlayStep(g2, opts, "num_ctx", "max_context_length", env.maxctx, "stop");
    OverlayStep(g3, opts, "temperature", "temperature", Float(0.75), "stop");
    OverlayStep(g4, opts, "top_k", "top_k", Int(100), "stop");
    OverlayStep(g5, opts, "top_p", "top_p", Float(0.92), "stop");
    SeedKeeps(g6, opts, env, "stop");
    OverlayStep(g7, opts, "stop", "stop_sequence", List([]), "stop");
  }

  /** Format 6 prompt: the system prompt followed by the body (detokenised context, user
      start, prompt, assistant start), both also kept under their own keys. */
  lemma OllamaPrompt(g: Params, env: Env)
    requires OllamaApplied(g, env).Ok?
    ensures var sys, body, r := Get(g, "system", Str("")), OllamaBody(g, env), OllamaApplied(g, env).value;
      sys.Str?
      && "prompt" in r && r["prompt"] == Str(sys.s + body)
      && "ollamasysprompt" in r && r["ollamasysprompt"] == sys
      && "ollamabodyprompt" in r && r["ollamabodyprompt"] == Str(body)
      && "trim_stop" in r && r["trim_stop"] == Bool(true)
  {
    var g9 := Concluded(g, env);
    FinishedValues(g9, Get(g, "system", Str("")).s, OllamaBody(g, env));
  }

  /** The state before the four last writes, on its own. */
  lemma Concluded(g: Params, env: Env) returns (g9: Params)
    requires OllamaApplied(g, env).Ok?
    ensures var sys := Get(g, "system", Str(""));
      sys.Str? && OllamaApplied(g, env).value == Finished(g9, sys.s, OllamaBody(g, env))
  {
    var opts, g1, g2, g3, g4, g5, g6, g7, g8;
    opts, g1, g2, g3, g4, g5, g6, g7, g8, g9 := Stages(g, env);
  }

  lemma FinishedValues(g9: Params, sys: string, body: string)
    ensures var r := Finished(g9, sys, body);
      "prompt" in r && r["prompt"] == Str(sys + body)
      && "ollamasysprompt" in r && r["ollamasysprompt"] == Str(sys)
      && "ollamabodyprompt" in r && r["ollamabodyprompt"] == Str(body)
      && "trim_stop" in r && r["trim_stop"] == Bool(true)
  {
    assert "prompt" != "ollamabodyprompt" && "prompt" != "ollamasysprompt" && "prompt" != "trim_stop";
    assert "ollamabodyprompt" != "ollamasysprompt" && "ollamabodyprompt" != "trim_stop";
    assert "ollamasysprompt" != "trim_stop";
  }

  /** A `system` that is not a string makes the final concatenation raise. */
  lemma SystemMustBeString(g: Params, env: Env)
    requires !Get(g, "system", Str("")).Str?
    ensures OllamaApplied(g, env).Err?
  {
  }

  /** With neither template configured and a context that cannot be detokenised, the
      body is the prompt between the default Alpaca markers. */
  lemma DefaultBody(g: Params, env: Env, p: string)
    requires "user_start" !in GlobalAdapter(env) && "assistant_start" !in GlobalAdapter(env)
    requires env.detokenize(Get(g, "context", List([]))).None?
    requires Get(g, "prompt", Str("")) == Str(p)
    ensures OllamaBody(g, env) == "\n\n### Instruction:\n" + p + "\n\n### Response:\n"
  {
  }

  /** With neither template configured, the two appended stop sequences are the bare
      markers. */
  lemma DefaultStops(env: Env)
    requires "user_start" !in GlobalAdapter(env) && "assistant_start" !in GlobalAdapter(env)
    ensures OllamaUserStart(env).Str? && Strip(OllamaUserStart(env).s) == "### Instruction:"
    ensures OllamaAssistantStart(env).Str? && Strip(OllamaAssistantStart(env).s) == "### Response:"
  {
    InstructionMarker();
    ResponseMarker();
  }

  lemma InstructionMarker()
    ensures Strip("\n\n### Instruction:\n") == "### Instruction:"
  {
    MarkerFramed("\n\n", "### Instruction:", "\n", "\n\n### Instruction:\n");
  }

  lemma ResponseMarker()
    ensures Strip("\n\n### Response:\n") == "### Response:"
  {
    MarkerFramed("\n\n", "### Response:", "\n", "\n\n### Response:\n");
  }

  lemma MarkerFramed(pre: string, s: string, post: string, whole: string)
    requires AllSpace(pre) && AllSpace(post)
    requires s != [] ==> !IsSpace(s[0]) && !IsSpace(s[|s| - 1])
    requires |pre + s + post| == |whole| && forall i :: 0 <= i < |whole| ==> (pre + s + post)[i] == whole[i]
    ensures Strip(whole) == s
  {
    StripFramed(pre, s, post);
    assert pre + s + post == whole;
  }

  // ---------------------------------------------------------------- key facts

  // Solver aids: the lemmas below model nothing in the source.  They state that some
  // dictionary keys differ, so that the larger proofs need not reason about string
  // literals themselves.

  /** None of the five plain fields is a key written by the later steps. */
  lemma PlainFieldsDistinct(key: string, field: string)
    requires PlainOption(key, field)
    ensures field != "stop_sequence" && field != "sampler_seed"
    ensures field !in {"stop_sequence", "options", "stop"}
    ensures field !in {"trim_stop", "ollamasysprompt", "ollamabodyprompt", "prompt"}
  {
  }

  lemma StopKeysApart()
    ensures "stop_sequence" !in {"trim_stop", "ollamasysprompt", "ollamabodyprompt", "prompt"}
    ensures "options" !in {"trim_stop", "ollamasysprompt", "ollamabodyprompt", "prompt"}
    ensures "stop" !in {"trim_stop", "ollamasysprompt", "ollamabodyprompt", "prompt"}
    ensures "options" != "stop_sequence" && "stop" != "stop_sequence"
    ensures "options" != "sampler_seed" && "stop" != "sampler_seed" && "stop_sequence" != "sampler_seed"
  {
  }
}
