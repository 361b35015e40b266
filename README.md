# AI Power Grid text worker: request normalisation, job life cycle and config substitution

This project models, in Dafny, the core of a text-generation worker for the AI Power Grid
horde and the text-generation backend it drives.

- **Request normaliser.** `transform_genparams` in `gen_params.cpp` (Python code, despite
  the file name) takes a loosely typed request in one of seven API dialects and rewrites
  the same mapping into the backend's canonical generation parameters:
  1. basic completion;
  2. the native dialect;
  3. OpenAI completion;
  4. OpenAI chat;
  5. image captioning;
  6. Ollama generate;
  7. Ollama chat.
- **Job framework.** `HordeJobFramework` in `worker/jobs/framework.py` holds a job's status
  and its classification. It also decides staleness, runs the base `start_job`, and runs
  the submit loop with its retry counter.
- **Text job.** `ScribeHordeJob` in `worker/jobs/scribe.py` builds on the framework. It
  keeps the popped payload (forcing `quiet`), refuses image-shaped payloads, translates a
  horde payload into an OpenAI chat-completion request, and builds the payload it submits.
- **Config substitution.** The Coolify start script `start_coolify.py` replaces
  `${NAME}` and `${NAME:-default}` placeholders in every string leaf of a YAML tree.

## How the code is modelled

- **Python values** (`py.dfy`, module `Py`).
  - A request or YAML document is a `Value`: null, bool, int, float (as a real), string,
    list, or dict with string keys.
  - A raised exception is `Err(PyError)`.
  - Truthiness, `dict.get`, `len`, `in`, `str.find`, `str.strip` (with Python's white-space
    set) and `split(sep, 1)[1]` are functions with contracts.
  - `float()` and `int()` are modelled exactly for non-strings. Their string parsing is an
    abstract `Parsers` parameter.
- **The transform** (`gen_params.dfy`).
  - It is specified as a chain of pure stage functions ending in
    `GenParams.TransformGenParams`.
  - The class `GenParams.GenParams` keeps the request in its `params` field. Its methods
    make the same in-place updates step by step.
  - The message loop and the content-item loop are `while` loops, proved against
    `RenderPrefix` and `RenderItems`.
  - The aliasing of the caller's lists is explicit. Appending to `stop_sequence` also
    changes the caller's `stop` list (formats 4 and 7), or the `stop` list inside `options`
    (format 6), when `stop_sequence` is that very list.
  - The external pieces are fields of an `Env` parameter:
    - the global chat adapter and `maxctx`;
    - `tryparseint`;
    - `detokenize_ids` (`None` when it raises);
    - `json.dumps(_, indent=0)`;
    - `str()`.
- **The transform's properties** (`gen_params_props.dfy` and `gen_params_ollama.dfy`).
  These state what each dialect sets, from where, and with which defaults. They also show
  that every key outside a dialect's write set is left alone.
- **The job** (`job_framework.dfy`).
  - The status predicates and the staleness rule are functions. The clock reading is a
    parameter.
  - The POST loop of `submit_job` is specified by the function `JobFramework.Posting`,
    which takes the sequence of horde replies as input. A reply is a status code, a
    connection error, a read timeout, or any other exception of the POST, which the loop
    does not catch and which leaves `submit_job` at once. The method
    `JobFramework.HordeJob.SubmitJob` runs the loop on the object's fields and is proved
    against it.
- **The text job** (`scribe_job.dfy`). The class `ScribeJob.ScribeJob` holds a
  `HordeJob` (the Python subclassing becomes composition) and its own fields.
- **Config substitution** (`start_coolify.dfy`). `re.sub` with the pattern
  `\$\{([^}]+)\}` is modelled as a left-to-right scan that resumes after each match.

## Model

| member | source | states |
|---|---|---|
| GenParams.GenParams.Transform | gen_params.cpp:1-190 | The in-place updates leave the request as `TransformGenParams` says, or raise the exception it names. |
| GenParams.GenParams.AliasPenalties | gen_params.cpp:5-9 | `rep_pen` is set from the three penalty aliases, or `float()`'s exception is raised. |
| GenParams.GenParams.ReconcileBanEos | gen_params.cpp:10-11 | `ban_eos_token` is copied from `use_default_badwordsids` only when it is absent. |
| GenParams.GenParams.ApplyBasic | gen_params.cpp:13-16 | The format 1 updates, with the `int()` exceptions. |
| GenParams.GenParams.ApplyOpenAI | gen_params.cpp:21-37 | The updates of formats 3, 4 and 7: the common fields, then the chat stage for 4 and 7. |
| GenParams.GenParams.ApplyOpenAICommon | gen_params.cpp:22-35 | The fields all OpenAI-style formats set, with the given default token budget. |
| GenParams.GenParams.ApplyChat | gen_params.cpp:38-144 | The chat stage: message rendering, tool injection, prompt and images, stop merge, `trim_stop`. |
| GenParams.GenParams.MergeChatStops | gen_params.cpp:139-143 | An empty `stop_sequence` is replaced by the two stripped starts. A non-empty list gets both appended, and so does the aliased `stop`. A non-list raises. |
| GenParams.GenParams.ApplyInterrogate | gen_params.cpp:147-154 | The fixed caption request. |
| GenParams.GenParams.OverlayOption | gen_params.cpp:170-179 | One Ollama option copied to its field when `options` has it. |
| GenParams.GenParams.ApplyOllama | gen_params.cpp:156-189 | The format 6 updates, including the append to whichever list `stop_sequence` aliases. |
| GenParams.RenderMessages | gen_params.cpp:51-133 | The loop over `messages` yields the text, images and tool injection that `RenderPrefix` defines, or the first exception. |
| GenParams.RenderOne | gen_params.cpp:53-133 | One loop iteration: role start, content, tool text on the last user message, role end. |
| GenParams.RenderItemList | gen_params.cpp:69-75 | The loop over content items yields the text and `data:image` payloads `RenderItems` defines, or the first exception. |
| GenParams.Max3 | gen_params.cpp:8 | The result is an upper bound of the three penalties and equals one of them. |
| GenParams.ItemErrorPropagates | gen_params.cpp:70-75 | An exception in one content item ends the whole item loop with that exception. |
| GenParams.MessageErrorPropagates | gen_params.cpp:52-133 | An exception in one message ends the whole message loop with that exception. |
| GenParamsProps.RepPenIsMaximum | gen_params.cpp:5-9 | After a successful transform, `rep_pen` is the largest of the three aliases, each defaulting to 1.0. |
| GenParamsProps.PenaltyErrorRaised | gen_params.cpp:5-7 | The first alias that `float()` rejects decides the exception the transform raises. |
| GenParamsProps.BanEosNeverOverwritten | gen_params.cpp:10-11 | An existing `ban_eos_token` survives every format. Otherwise it is `use_default_badwordsids` when present, else absent. |
| GenParamsProps.KaiIsCommonOnly | gen_params.cpp:18-19 | Format 2 and unknown formats change only the common keys, and fail only as the penalties do. |
| GenParamsProps.BasicDefaults | gen_params.cpp:13-16 | `prompt` comes from `text`, `top_k` is `int(top_k)` (default 120) and `max_length` is `int(max)` (default 200). Errors are raised in that order. |
| GenParamsProps.CommonFields | gen_params.cpp:25-35 | `max_length` is `int(max_tokens, else max_completion_tokens, else the default)`. `presence_penalty` is `float(presence, else frequency, else 0.0)`. `stop_sequence` is `stop` as a list. `sampler_seed` and `mirostat` are also set. |
| GenParamsProps.CompletionFields | gen_params.cpp:24-35 | Format 3 uses the default budget 200 and writes only its own keys. |
| GenParamsProps.ChatMaxLengthFallback | gen_params.cpp:22-25 | For chat, the budget falls back to the adapter's `max_length`, then 512. |
| GenParamsProps.ChatNeedsDictAdapter | gen_params.cpp:22-24 | A chat request whose adapter is not a dict raises AttributeError. |
| GenParamsProps.InterrogateFixed | gen_params.cpp:147-154 | `images` is `[image]` and `max_length` is 42. Without an adapter, the prompt is the instruction/caption/response text. Nothing else changes. |
| GenParamsProps.InterrogateCaption | gen_params.cpp:151-154 | The caption prompt is the user start, the caption instruction and the assistant start. Each start comes from the adapter when the adapter sets it and is the default otherwise, so mixed cases are covered too. |
| GenParamsProps.RenderedInOrder | gen_params.cpp:52-133 | The loop's result equals the message-by-message reference rendering `RenderFrom`. |
| GenParamsProps.PrefixThenFrom | gen_params.cpp:52-133 | Rendering the first k messages, then the rest, is the whole rendering. |
| GenParamsProps.UnknownRoleAddsContentOnly | gen_params.cpp:54-75 | A message with an unknown role contributes only its content: no start, end or tools. |
| GenParamsProps.ItemRendered | gen_params.cpp:71-75 | One item contributes exactly its text, or the part after the first comma of a `data:image` URL. |
| GenParamsProps.ItemsRendered | gen_params.cpp:70-75 | The item loop's text and images are the concatenation, in order, of each item's contribution. |
| GenParamsProps.ContentRendered | gen_params.cpp:63-75 | A content adds nothing when it is falsy (missing, `None`, empty). A string is added verbatim. A list adds its items' text and images in order. |
| GenParamsProps.KnownRoleRendered | gen_params.cpp:54-133 | A system, user, assistant or tool message without tool injection renders as role start, content text, role end, with the content's images. A content that raises makes the message raise the same. |
| GenParamsProps.DataUrlPayload | gen_params.cpp:73-75 | A `data:image…,payload` URL contributes exactly `payload`. |
| GenParamsProps.ToolPlanCases | gen_params.cpp:79-80 | Tool text is produced exactly when `tools` is non-empty and `tool_choice` is not None. A truthy `tools` without a length raises TypeError. |
| GenParamsProps.ToolText | gen_params.cpp:79-93 | When tools are requested with a sized `tools`, the tool text is the serialised `tools` followed by the instruction `tool_choice` selects. |
| GenParamsProps.LastUserRendered | gen_params.cpp:54-133 | The last user message is user start, content text, the tool text when there is some, and user end; it is marked injected exactly then. A content exception comes first, then the tool plan's. |
| GenParamsProps.EarlierMessagesInjectNothing | gen_params.cpp:77 | No message before the last injects tool text. |
| GenParamsProps.InjectedIffLastUser | gen_params.cpp:77-80 | Tools are injected exactly when the last message is from the user and tools are requested. |
| GenParamsProps.InstructionChoice | gen_params.cpp:81-93 | Without a named function the generic instruction is used. A `tool_choice` naming a function gets the specific instruction with that name. |
| GenParamsProps.ChatPrompt | gen_params.cpp:135-138 | `prompt` is the rendered messages plus the assistant start. `images` is set only when some were found. `trim_stop` is true. |
| GenParamsProps.SystemThenUserRendered | gen_params.cpp:51-133 | A system message then a user message render as system start, system text, system end, user start, user text, user end. |
| GenParamsProps.SystemThenUser | gen_params.cpp:51-138 | For that chat, `prompt` is the rendering above followed by the assistant start. |
| GenParamsProps.ChatTools | gen_params.cpp:94-125 | With tools injected, temperature is 0.2, `using_openai_tools` is true and the JSON grammar is set. Otherwise these three are untouched. |
| GenParamsProps.StopsMerged | gen_params.cpp:139-143 | The stop merge's result, including the aliased `stop`. |
| GenParamsProps.ChatStops | gen_params.cpp:139-144 | After the whole chat stage, `stop_sequence` is the old sequence plus the two stripped starts. `stop` follows when it is that same list. |
| GenParamsProps.ChatStopSequence | gen_params.cpp:29-32 | Formats 4 and 7: `stop_sequence` is `stop` as a list plus the stripped starts. A non-empty `stop` list receives the same two entries; any other `stop` is kept. |
| GenParamsProps.CommonStop | gen_params.cpp:29-32 | The common stage turns `stop` into a list in `stop_sequence` and leaves `stop` alone. |
| GenParamsProps.CommonFrame | gen_params.cpp:5-11 | The common stage writes only `rep_pen` and `ban_eos_token`. |
| GenParamsProps.OpenAICommonFrame | gen_params.cpp:25-35 | The OpenAI common stage writes only its five keys. |
| GenParamsProps.ChatFrame | gen_params.cpp:38-144 | The chat stage writes only its keys. |
| GenParamsProps.OllamaFrame | gen_params.cpp:156-189 | Format 6 writes only its keys (including the aliased `stop` and `options`). |
| GenParamsProps.FormatFrame | gen_params.cpp:13-189 | Each dialect writes only its declared keys. |
| GenParamsProps.TransformFrame | gen_params.cpp:1-190 | Every key outside the common and dialect write sets is kept, and no key is added outside them. |
| GenParamsOllama.PlainOptionApplied | gen_params.cpp:170-179 | Each of `num_predict`, `num_ctx`, `temperature`, `top_k` and `top_p` sets its field exactly when `options` has it; otherwise the field is untouched. The defaults in the source are never used. |
| GenParamsOllama.SeedApplied | gen_params.cpp:180-181 | `sampler_seed` is `tryparseint(options.seed)` when present; otherwise it is untouched. |
| GenParamsOllama.OllamaStops | gen_params.cpp:169-185 | `stop_sequence` is `options.stop` or `stop` (default `[]`) plus the two stripped starts. The same list object is extended, so `options.stop`, or the top-level `stop`, shows the appended entries. |
| GenParamsOllama.OllamaPrompt | gen_params.cpp:166-189 | `prompt` is `system + body`. `ollamasysprompt`, `ollamabodyprompt` and `trim_stop` are set. |
| GenParamsOllama.SystemMustBeString | gen_params.cpp:166-189 | A non-string `system` makes the final concatenation raise. |
| GenParamsOllama.DefaultBody | gen_params.cpp:157-167 | Without adapter templates and with failing detokenisation, the body is `"\n\n### Instruction:\n" + prompt + "\n\n### Response:\n"`. |
| GenParamsOllama.DefaultStops | gen_params.cpp:160-161 | The default starts strip to `### Instruction:` and `### Response:`. |
| Coolify.SubstituteEnvVars | start_coolify.py:10-25 | Strings stay strings; any other value is returned unchanged. |
| Coolify.PlaceholderEnd | start_coolify.py:14 | The pattern matches at the start exactly when `${` is followed by at least one non-`}` character and a first `}`. |
| Coolify.DefaultWhenUnset | start_coolify.py:16-20 | `${NAME:-default}` with NAME unset gives the default, which may itself contain `:-`. |
| Coolify.ValueWhenSet | start_coolify.py:16-20 | `${NAME:-default}` with NAME set gives its value, even when empty. |
| Coolify.PlainName | start_coolify.py:21-22 | `${NAME}` gives the value, or `""` when unset. |
| Coolify.LiteralPrefix | start_coolify.py:24 | Text without `$` is copied, and the scan continues after it. |
| Coolify.PlaceholderReplaced | start_coolify.py:14-24 | A placeholder is replaced by `replace` of its inner text, and the scan resumes after the `}`. |
| Coolify.NotRescanned | start_coolify.py:24 | A value that is itself a placeholder is not expanded again. |
| Coolify.EmptyNameKept | start_coolify.py:14 | `${}` does not match and is kept literally. |
| Coolify.PlainTextKept | start_coolify.py:24 | Text with no match anywhere is returned unchanged. |
| Coolify.UnclosedKept | start_coolify.py:14 | Text without `}` (for example an unclosed `${`) is returned unchanged. |
| Coolify.EveryLeafSubstituted | start_coolify.py:27-34 | Dict keys and list lengths and order are kept; every string leaf becomes its substituted text and every other leaf stays as it is. |
| Coolify.PlainTreeKept | start_coolify.py:27-34 | A tree without placeholders comes back equal to itself. |
| JobFramework.FinishedStatuses | worker/jobs/framework.py:34-36 | Finished means any status other than WORKING, POLLING and INIT. |
| JobFramework.ClassesNested | worker/jobs/framework.py:38-60 | A faulted or finalizing job is finished; a polling job is not. |
| JobFramework.StaleIff | worker/jobs/framework.py:46-56 | Stale means more than 1200 s since the start, or a truthy stale time that has passed on a job out of INIT. |
| JobFramework.OnlyHardLimit | worker/jobs/framework.py:50-54 | In INIT, or without a stale time, only the 1200 s rule applies. |
| JobFramework.StaleMonotone | worker/jobs/framework.py:46-56 | A stale job stays stale as time advances. |
| JobFramework.PostsBounded | worker/jobs/framework.py:97-143 | The loop makes at least one POST and at most `4 - loop_retry`. |
| JobFramework.GiveUpIff | worker/jobs/framework.py:104-117 | Submission is given up exactly when all remaining tries hit retryable replies; the counter ends at 4. The same holds for the connection-error path at lines 134-143. |
| JobFramework.FirstDecisive | worker/jobs/framework.py:96-133 | The first reply that is not retried decides. A response resets the counter and settles the status, and the job is accepted exactly when it is ok and not 404. An uncaught exception leaves status and counter as they stand. |
| JobFramework.FinalizingResolved | worker/jobs/framework.py:96-149 | A finalizing job ends DONE or DONE_FAULTED, unless an uncaught exception of the POST ends `submit_job`, which leaves it finalizing. |
| JobFramework.RaisedLeavesState | worker/jobs/framework.py:96-134 | An exception other than a connection error or read timeout leaves the loop with the job not accepted, its status unchanged, and the counter raised once per earlier retry. |
| JobFramework.OtherStatusKept | worker/jobs/framework.py:111-124 | Any other status is kept, or becomes FAULTED on giving up. |
| JobFramework.AcceptedResets | worker/jobs/framework.py:118 | Acceptance leaves `loop_retry` at 0. |
| JobFramework.HordeJob.constructor | worker/jobs/framework.py:20-32 | Initial status INIT, counter 0, no stale time, empty submit payload. |
| JobFramework.HordeJob.StartJob | worker/jobs/framework.py:66-80 | The base start ends DONE with `{"success": True}`. |
| JobFramework.HordeJob.SubmitJob | worker/jobs/framework.py:88-156 | A faulted job sends the faulted payload. Status, counter, POST count and whether an uncaught exception ended the method are as `Posting` says. An accepted job has its payload and pop cleared; otherwise they are kept. |
| ScribeJob.ShortModelName | worker/jobs/scribe.py:53-54 | Names over 15 characters become the first 12 plus `..`; shorter names are unchanged; the result is never over 15. |
| ScribeJob.ShortNameStable | worker/jobs/scribe.py:53-54 | Shortening is idempotent. |
| ScribeJob.O1MiniRequest | worker/jobs/scribe.py:388-403 | o1-mini gets exactly `model`, the system and user messages, and `max_completion_tokens`. It fails only on `int(max_length)`. |
| ScribeJob.OtherModelKeys | worker/jobs/scribe.py:406-424 | Other models get exactly the five base keys, plus `stop` and each penalty exactly when the payload has them. |
| ScribeJob.OtherModelRequest | worker/jobs/scribe.py:388-418 | One user message, `max_tokens`, temperature (default 0.8), top_p (default 0.9); `stop` is `stop_sequence`. |
| ScribeJob.PenaltySent | worker/jobs/scribe.py:420-424 | A penalty in the payload is sent as its `float()`. |
| ScribeJob.RequestErrors | worker/jobs/scribe.py:388-424 | The transform fails exactly when `int()`, or for other models some `float()`, fails. |
| ScribeJob.DefaultRequest | worker/jobs/scribe.py:388-415 | An empty payload gives prompt `""`, 80 tokens, temperature 0.8 and top_p 0.9. |
| ScribeJob.WithFloat | worker/jobs/scribe.py:420-424 | An optional key is converted and set only when present; the error is `float()`'s. |
| ScribeJob.SubmitPayload | worker/jobs/scribe.py:432-439 | Exactly `id`, `generation` and `seed`, plus `state` only when `censored` is truthy. |
| ScribeJob.MaxSeconds | worker/jobs/scribe.py:75 | `max_length / 2 + 10` for ints and floats, and for a bool counted as 1 or 0; other values raise TypeError. |
| ScribeJob.ScribeJob.constructor | worker/jobs/scribe.py:25-42 | The payload gets `quiet = True`, which the pop (the same dict) shows too. The id, model and empty result fields are set. |
| ScribeJob.NewScribeJob | worker/jobs/scribe.py:36-39 | A missing `id` or `payload` raises KeyError. A non-dict payload raises TypeError. Otherwise the job is created. |
| ScribeJob.ScribeJob.StartJob | worker/jobs/scribe.py:44-86 | The id is sliced and `max_length` read first; their errors change nothing. Then the base start runs and the time budget and stale time are set; a non-numeric `max_length` raises after the base start and leaves the budget and stale time as they were. An image-shaped payload faults the job. The model name, seed, text, censored flag, start time, out-of-memory flag, id, payload, pop and retry counter are kept in every case. |
| ScribeJob.ScribeJob.PrepareSubmitPayload | worker/jobs/scribe.py:432-439 | The submit payload becomes `SubmitPayload` of the job's fields. |
| ScribeJob.ScribeJob.SubmitJob | worker/jobs/scribe.py:428-430 | The payload is prepared, then the base loop runs on it: the payload sent, the status, retry counter, POST count and uncaught-exception flag are as `Posting` gives them, acceptance clears the payload and pop, and the start time, stale time and out-of-memory flag are kept. |

## Left out

- **Exception state.** The state of the request mapping after an exception in the
  middle of `transform_genparams` is not specified. The model says only which exception
  is raised. The in-place methods make their updates in source order.
- **Floats.** Python floats are modelled as exact reals: no NaN, no infinity, no rounding.
- **Dict order.** Dict key order is not modelled, so the order of keys in `json.dumps`
  output is not captured.
- **Parameters standing for what cannot be seen.** The string parsing of `float()` and
  `int()`, `tryparseint`, `detokenize_ids`, `json.dumps` and `str()` are parameters, not
  definitions.
- **Printing and logging.** `utfprint`, all logging, and the formatted log line of
  `start_job` are left out. The shortened model name is modelled, but not its use in the
  line.
- **Defaults that never apply.** The code reads the Ollama defaults 200, `maxctx`, 0.75,
  100, 0.92 and -1 (gen_params.cpp:171-181) only after checking that the key is present,
  so those defaults never apply. One could expect an absent `num_ctx` to fall back to the
  server's context size. The code never does that, and the model follows the code
  (`GenParamsOllama.PlainOptionApplied`).
- **Whole-request independence from `maxctx`.** That the format 6 result does not depend
  on `maxctx` is stated key by key (`GenParamsOllama.PlainOptionApplied`), not as the
  equality of two whole results.
- **The `maxctx` global.** It is read only in format 6.
- **The global chat adapter.** `chatcompl_adapter` is taken to be a dict or `None`. A global
  of another type would raise AttributeError at its `.get` (gen_params.cpp:22-24, 151-153,
  159-161); that case is not modelled. A request's own `adapter` may be any value, and a
  non-dict one raises AttributeError (`GenParamsProps.ChatNeedsDictAdapter`).
- **The tool keys.** In the chat stage the tool keys (`temperature`, `using_openai_tools`,
  `grammar`) are set after the message loop, not inside the last iteration. Nothing in
  the loop reads them, so the final mapping is the same.
- **Time and threads.** `time.time()` and `time.sleep` are replaced by a clock-reading
  parameter and nothing. `is_stale` reads the clock twice; the model uses one reading for
  both. The submit thread is left out: `ScribeJob.ScribeJob.StartJob` reports instead
  that the job was refused and goes straight to submission. The request session, the
  headers and the endpoint URL are left out.
- JobFramework.HordeJob.SubmitJob: Decoding the accepted reply (`submit_req.json()`,
  which can raise) is not modelled. Neither are the `post_submit_tasks` hook's global
  statistics in the text job.
- JobFramework.HordeJob.StartJob: The `except` branch, including `out_of_memory`, is
  not modelled, because nothing in the base `try` block can raise. For the same reason,
  the FAULTED check right after the base start in the text job (scribe.py:71-73) can never
  fire, and the model omits it.
- ScribeJob.ScribeJob.StartJob: It covers the job up to the image-payload check
  (scribe.py:44-86). The generation that follows (the KoboldAI and OpenAI HTTP clients and
  their retries) is network code. Tokens per second and the speed indicator are left out.
  - The `80` default of `max_length` at scribe.py:75 never applies, because line 50
    already raised KeyError when the key is missing.
  - Slicing `current_id` is modelled as allowed for strings and lists only.
  - The model name comes from the bridge configuration and is taken as a string.
- ScribeJob.ScribeJob.constructor: It requires `id` and a dict `payload`. The method
  `ScribeJob.NewScribeJob` models the KeyError and TypeError raised otherwise.
  `requested_softprompt` is not kept, because nothing in the core reads it.
- **Other base fields.** `mm`, `bd`, `process_time` and `headers` of the framework are left
  out.
- **Config script plumbing.** YAML loading and dumping, the file system and the fallback
  config built from the environment in `start_coolify.py` are left out. The environment is
  a map parameter.
- **YAML dict keys.** They are modelled as strings. Non-string keys, which YAML allows,
  are not covered.
