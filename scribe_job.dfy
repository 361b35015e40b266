/** The text ("scribe") job: the payload it keeps from the popped request, the checks at the
    start of `start_job`, the translation of a horde payload into an OpenAI chat-completion
    request, and the payload it submits. */
module ScribeJob {
  import opened Py
  import opened JobFramework

  // ---------------------------------------------------------------- the model name

  /** The model name as shown in the job's log line: names over 15 characters keep their
      first 12 characters and get `".."` appended. */
  function ShortModelName(name: string): (r: string)
    ensures |r| <= 15
    ensures |name| <= 15 ==> r == name
    ensures |name| > 15 ==> |r| == 14 && r[..12] == name[..12] && r[12..] == ".."
  {
    if |name| > 15 then name[..12] + ".." else name
  }

  /** Shortening twice shortens no further. */
  lemma ShortNameStable(name: string)
    ensures ShortModelName(ShortModelName(name)) == ShortModelName(name)
  {
  }

  // ---------------------------------------------------------------- the OpenAI request

  /** The chat message `{"role": role, "content": content}`. */
  function Message(role: string, content: Value): Value {
    Dict(map["role" := Str(role), "content" := content])
  }

  /** The system message sent to o1-mini. */
  const HelperPrompt: string := "You are a helpful assistant."

  /** `d` with `key` set to `float(payload[key])` when the payload has that key. */
  function WithFloat(p: Parsers, payload: Dict, key: string, d: Dict): (r: Result<Dict>)
    ensures key !in payload ==> r == Ok(d)
    ensures key in payload ==> (r.Ok? <==> ToFloat(p, payload[key]).Ok?)
    ensures key in payload && r.Ok? ==> r.value == d[key := Float(ToFloat(p, payload[key]).value)]
    ensures r.Err? ==> r.error == ToFloat(p, payload[key]).error
  {
    if key in payload then
      var x :- ToFloat(p, payload[key]);
      Ok(d[key := Float(x)])
    else Ok(d)
  }

  /** `transform_to_openai_format` for the configured OpenAI model `model`. */
  function OpenAIRequest(payload: Dict, model: string, p: Parsers): Result<Dict> {
    var prompt := Get(payload, "prompt", Str(""));
    var maxTokens :- ToInt(p, Get(payload, "max_length", Int(80)));
    if model == "o1-mini" then
      Ok(map["model" := Str(model),
             "messages" := List([Message("system", Str(HelperPrompt)), Message("user", prompt)]),
             "max_completion_tokens" := Int(maxTokens)])
    else
      var temperature :- ToFloat(p, Get(payload, "temperature", Float(0.8)));
      var topP :- ToFloat(p, Get(payload, "top_p", Float(0.9)));
      var base := map["model" := Str(model),
                      "messages" := List([Message("user", prompt)]),
                      "max_tokens" := Int(maxTokens),
                      "temperature" := Float(temperature),
                      "top_p" := Float(topP)];
      var withStop := if "stop_sequence" in payload then base["stop" := payload["stop_sequence"]] else base;
      var withFrequency :- WithFloat(p, payload, "frequency_penalty", withStop);
      WithFloat(p, payload, "presence_penalty", withFrequency)
  }

  /** The token count `int(max_length)`, 80 when the payload has none. */
  function MaxTokens(payload: Dict, p: Parsers): Result<int> {
    ToInt(p, Get(payload, "max_length", Int(80)))
  }

  /** The keys `float(v)` is applied to, in order, for models other than o1-mini. */
  function FloatsRead(payload: Dict): seq<Value> {
    [Get(payload, "temperature", Float(0.8)), Get(payload, "top_p", Float(0.9))]
    + (if "frequency_penalty" in payload then [payload["frequency_penalty"]] else [])
    + (if "presence_penalty" in payload then [payload["presence_penalty"]] else [])
  }

  /** o1-mini gets exactly the model, a system and a user message, and
      `max_completion_tokens`: no sampling, stop or penalty keys. */
  lemma O1MiniRequest(payload: Dict, p: Parsers)
    ensures OpenAIRequest(payload, "o1-mini", p).Ok? <==> MaxTokens(payload, p).Ok?
    ensures OpenAIRequest(payload, "o1-mini", p).Ok? ==>
      var r := OpenAIRequest(payload, "o1-mini", p).value;
      r.Keys == {"model", "messages", "max_completion_tokens"}
      && r["model"] == Str("o1-mini")
      && r["messages"] == List([Message("system", Str("You are a helpful assistant.")),
                                Message("user", Get(payload, "prompt", Str("")))])
      && r["max_completion_tokens"] == Int(MaxTokens(payload, p).value)
  {
  }

  /** Any other model gets exactly the keys `model`, `messages`, `max_tokens`,
      `temperature` and `top_p`, plus `stop` and the two penalties exactly when the payload
      has `stop_sequence` and the penalties. */
  lemma OtherModelKeys(payload: Dict, model: string, p: Parsers)
    requires model != "o1-mini" && OpenAIRequest(payload, model, p).Ok?
    ensures OpenAIRequest(payload, model, p).value.Keys
        == {"model", "messages", "max_tokens", "temperature", "top_p"}
           + (if "stop_sequence" in payload then {"stop"} else {})
           + (if "frequency_penalty" in payload then {"frequency_penalty"} else {})
           + (if "presence_penalty" in payload then {"presence_penalty"} else {})
  {
  }

  /** Any other model gets one user message, `max_tokens`, temperature and top_p with their
      defaults 0.8 and 0.9, and `stop` copied from `stop_sequence`. */
  lemma OtherModelRequest(payload: Dict, model: string, p: Parsers)
    requires model != "o1-mini" && OpenAIRequest(payload, model, p).Ok?
    ensures var r := OpenAIRequest(payload, model, p).value;
      r["model"] == Str(model)
      && r["messages"] == List([Message("user", Get(payload, "prompt", Str("")))])
      && MaxTokens(payload, p).Ok? && r["max_tokens"] == Int(MaxTokens(payload, p).value)
      && ToFloat(p, Get(payload, "temperature", Float(0.8))).Ok?
      && r["temperature"] == Float(ToFloat(p, Get(payload, "temperature", Float(0.8))).value)
      && ToFloat(p, Get(payload, "top_p", Float(0.9))).Ok?
      && r["top_p"] == Float(ToFloat(p, Get(payload, "top_p", Float(0.9))).value)
      && ("stop_sequence" in payload ==> r["stop"] == payload["stop_sequence"])
  {
    OtherModelKeys(payload, model, p);
  }

  /** For other models a penalty present in the payload is sent as `float()` of its value. */
  lemma PenaltySent(payload: Dict, model: string, p: Parsers, key: string)
    requires model != "o1-mini" && OpenAIRequest(payload, model, p).Ok?
    requires key in {"frequency_penalty", "presence_penalty"} && key in payload
    ensures ToFloat(p, payload[key]).Ok?
    ensures var r := OpenAIRequest(payload, model, p).value;
      key in r && r[key] == Float(ToFloat(p, payload[key]).value)
  {
  }

  /** The request fails exactly when `int(max_length)` fails or, for other models, one of
      the `float()` conversions does. */
  lemma RequestErrors(payload: Dict, model: string, p: Parsers)
    ensures OpenAIRequest(payload, model, p).Err? <==>
      MaxTokens(payload, p).Err?
      || (model != "o1-mini" && exists v :: v in FloatsRead(payload) && ToFloat(p, v).Err?)
  {
    var fs := FloatsRead(payload);
    if model != "o1-mini" && MaxTokens(payload, p).Ok? {
      if OpenAIRequest(payload, model, p).Err? {
        var t, u := Get(payload, "temperature", Float(0.8)), Get(payload, "top_p", Float(0.9));
        assert t in fs && u in fs;
        if ToFloat(p, t).Ok? && ToFloat(p, u).Ok? {
          if "frequency_penalty" in payload && ToFloat(p, payload["frequency_penalty"]).Err? {
            assert payload["frequency_penalty"] in fs;
          } else {
            assert "presence_penalty" in payload && payload["presence_penalty"] in fs;
          }
        }
      }
    }
  }

  /** A payload with none of the optional keys gives the default request. */
  lemma DefaultRequest(payload: Dict, model: string, p: Parsers)
    requires model != "o1-mini"
    requires forall k :: k in payload ==> k !in {"prompt", "max_length", "temperature", "top_p",
                                                 "stop_sequence", "frequency_penalty", "presence_penalty"}
    ensures OpenAIRequest(payload, model, p)
        == Ok(map["model" := Str(model), "messages" := List([Message("user", Str(""))]),
                  "max_tokens" := Int(80), "temperature" := Float(0.8), "top_p" := Float(0.9)])
  {
    assert "prompt" !in payload && "max_length" !in payload;
    assert "temperature" !in payload && "top_p" !in payload && "stop_sequence" !in payload;
    assert "frequency_penalty" !in payload && "presence_penalty" !in payload;
  }

  // ---------------------------------------------------------------- the submit payload

  /** The payload `prepare_submit_payload` builds: the job id, the generated text and the
      seed, and the censorship state only when it is truthy. */
  function SubmitPayload(id: Value, text: Value, seed: Value, censored: Value): (d: Dict)
    ensures d.Keys == {"id", "generation", "seed"} + (if Truthy(censored) then {"state"} else {})
    ensures d["id"] == id && d["generation"] == text && d["seed"] == seed
    ensures Truthy(censored) ==> d["state"] == censored
  {
    var d := map["id" := id, "generation" := text, "seed" := seed];
    if Truthy(censored) then d["state" := censored] else d
  }

  // ---------------------------------------------------------------- starting the job

  /** A payload shaped like an image request, which a text worker refuses. */
  predicate ImageShaped(payload: Dict) {
    "width" in payload || "length" in payload || "steps" in payload
  }

  /** `current_id[:8]` can be taken: strings and lists can be sliced. */
  predicate Sliceable(v: Value) {
    v.Str? || v.List?
  }

  /** The `max_seconds` budget `max_length / 2 + 10`, or `None` for the TypeError of a
      value that is not a number. */
  function MaxSeconds(v: Value): (r: Option<real>)
    ensures r.Some? <==> (v.Int? || v.Float? || v.Bool?)
    ensures v.Int? ==> r == Some(v.i as real / 2.0 + 10.0)
    ensures v.Float? ==> r == Some(v.r / 2.0 + 10.0)
    ensures v.Bool? ==> r == Some((if v.b then 1.0 else 0.0) / 2.0 + 10.0)
  {
    match v
    case Int(i) => Some(i as real / 2.0 + 10.0)
    case Float(x) => Some(x / 2.0 + 10.0)
    case Bool(b) => Some(if b then 10.5 else 10.0)
    case _ => None
  }

  /** `ScribeHordeJob`: the base job state plus the text job's own fields. */
  class ScribeJob {
    const job: HordeJob
    var currentModel: string
    var currentId: Value
    var currentPayload: Dict
    var seed: Value
    var text: Value
    var censored: Value
    var maxSeconds: Option<real>

    /** A job for a popped request that has an id and a dict payload.  The payload gets
        `quiet` set, and since it is the very dict held in the pop, the pop sees it too. */
    constructor(pop: Dict, model: string, now: real)
      requires "id" in pop && "payload" in pop && pop["payload"].Dict?
      ensures fresh(job)
      ensures currentPayload == pop["payload"].fields["quiet" := Bool(true)]
      ensures job.pop == Some(pop["payload" := Dict(currentPayload)])
      ensures job.status == Init && job.loopRetry == 0 && job.startTime == now && job.staleTime == None
      ensures job.submitDict == map[] && !job.outOfMemory
      ensures currentModel == model && currentId == pop["id"]
      ensures seed == Null && text == Null && censored == Null && maxSeconds == None
    {
      var j := new HordeJob(pop, now);
      var payload := pop["payload"].fields["quiet" := Bool(true)];
      j.pop := Some(pop["payload" := Dict(payload)]);
      job := j;
      currentModel := model;
      currentId := pop["id"];
      currentPayload := payload;
      seed := Null;
      text := Null;
      censored := Null;
      maxSeconds := None;
    }

    /** The start of `start_job` at clock reading `now`.  The job id must be sliceable and
        the payload must have `max_length`, or nothing changes; then the base start runs,
        the time budget is set (a TypeError for a non-numeric `max_length`), and an
        image-shaped payload is refused: the job is faulted and goes straight to submission
        (`refused`).  Otherwise the generation would follow. */
    method StartJob(now: real) returns (raised: Option<PyError>, refused: bool)
      modifies this, job
      ensures !Sliceable(currentId) ==> raised == Some(TypeError)
      ensures Sliceable(currentId) && "max_length" !in currentPayload ==> raised == Some(KeyError)
      ensures Sliceable(currentId) && "max_length" in currentPayload ==>
        var ms := MaxSeconds(currentPayload["max_length"]);
        job.submitDict == map["success" := Bool(true)]
        && (ms.None? ==> raised == Some(TypeError) && !refused && job.status == Done)
        && (ms.Some? ==> raised == None && maxSeconds == ms && job.staleTime == Some(now + ms.value)
                         && refused == ImageShaped(currentPayload)
                         && job.status == (if refused then Faulted else Done))
      ensures !Sliceable(currentId) || "max_length" !in currentPayload ==>
        job.status == old(job.status) && job.submitDict == old(job.submitDict)
        && job.staleTime == old(job.staleTime) && maxSeconds == old(maxSeconds) && !refused
      ensures (Sliceable(currentId) && "max_length" in currentPayload
               && MaxSeconds(currentPayload["max_length"]).None?) ==>
        job.staleTime == old(job.staleTime) && maxSeconds == old(maxSeconds)
      ensures currentId == old(currentId) && currentPayload == old(currentPayload)
      ensures currentModel == old(currentModel) && seed == old(seed)
      ensures text == old(text) && censored == old(censored)
      ensures job.pop == old(job.pop) && job.loopRetry == old(job.loopRetry)
      ensures job.startTime == old(job.startTime) && job.outOfMemory == old(job.outOfMemory)
    {
      refused := false;
      if !Sliceable(currentId) {
        return Some(TypeError), false;
      }
      if "max_length" !in currentPayload {
        return Some(KeyError), false;
      }
      job.StartJob();
      var ms := MaxSeconds(currentPayload["max_length"]);
      if ms.None? {
        return Some(TypeError), false;
      }
      maxSeconds := ms;
      job.staleTime := Some(now + ms.value);
      if ImageShaped(currentPayload) {
        job.status := Faulted;
        return None, true;
      }
      return None, false;
    }

    /** `prepare_submit_payload` */
    method PrepareSubmitPayload()
      modifies job
      ensures job.submitDict == SubmitPayload(currentId, text, seed, censored)
      ensures job.status == old(job.status) && job.loopRetry == old(job.loopRetry)
      ensures job.pop == old(job.pop) && job.staleTime == old(job.staleTime)
      ensures job.startTime == old(job.startTime) && job.outOfMemory == old(job.outOfMemory)
    {
      var d := map["id" := currentId, "generation" := text, "seed" := seed];
      if Truthy(censored) {
        d := d["state" := censored];
      }
      job.submitDict := d;
    }

    /** `submit_job`: the text job's payload is prepared, then the base loop runs. */
    method SubmitJob(replies: nat -> Reply) returns (sent: Dict, posts: nat, raised: bool)
      modifies job
      ensures sent == (if old(job.status) in {Faulted, FinalizingFaulted} then FaultedPayload
                       else SubmitPayload(currentId, text, seed, censored))
      ensures var o := Posting(old(job.status), old(job.loopRetry), replies, 0);
        job.status == o.status && job.loopRetry == o.retry && posts == o.posts && raised == o.raised
        && (if o.accepted then job.submitDict == map[] && job.pop == None
            else job.submitDict == sent && job.pop == old(job.pop))
      ensures job.startTime == old(job.startTime) && job.staleTime == old(job.staleTime)
      ensures job.outOfMemory == old(job.outOfMemory)
    {
      PrepareSubmitPayload();
      sent, posts, raised := job.SubmitJob(replies);
    }
  }

  /** Creating a `ScribeHordeJob` from a popped request: a KeyError without `id` or
      `payload`, a TypeError when the payload is not a dict (it cannot take `quiet`). */
  method NewScribeJob(pop: Dict, model: string, now: real) returns (j: ScribeJob?, raised: Option<PyError>)
    ensures raised == (if "id" !in pop || "payload" !in pop then Some(KeyError)
                       else if !pop["payload"].Dict? then Some(TypeError) else None)
    ensures raised.None? <==> j != null
    ensures j != null ==>
      (fresh(j) && fresh(j.job)
       && j.currentPayload == pop["payload"].fields["quiet" := Bool(true)]
       && j.job.pop == Some(pop["payload" := Dict(j.currentPayload)])
       && j.currentId == pop["id"] && j.job.status == Init)
  {
    if "id" !in pop || "payload" !in pop {
      return null, Some(KeyError);
    }
    if !pop["payload"].Dict? {
      return null, Some(TypeError);
    }
    j := new ScribeJob(pop, model, now);
    raised := None;
  }
}
