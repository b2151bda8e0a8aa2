/** The server's static model catalogue and the pure decisions around one completion:
    which model a request names, which provider it goes to, how the request is shaped,
    how the provider's answer is read, and how a failure becomes an `error` event. */
module Models {
  import opened Options
  import opened Chat

  /** One entry of the catalogue. `provider` is kept as the catalogue's own string:
      routing tests it against "groq" and sends everything else to OpenAI. */
  datatype ModelConfig = ModelConfig(provider: string, maxTokens: nat, temperature: real)

  const AiModels: map<string, ModelConfig> := map[
    "gpt-3.5-turbo-16k" := ModelConfig("openai", 700, 0.7),
    "gpt-4" := ModelConfig("openai", 4000, 0.7),
    "gpt-4-turbo" := ModelConfig("openai", 4000, 0.7),
    "meta-llama/llama-4-scout-17b-16e-instruct" := ModelConfig("groq", 8192, 0.7),
    "meta-llama/llama-4-maverick-17b-128e-instruct" := ModelConfig("groq", 8192, 0.7),
    "qwen-qwq-32b" := ModelConfig("groq", 8192, 0.7),
    "mistral-saba-24b" := ModelConfig("groq", 8192, 0.7)
  ]

  /** The id used when a transcript names no model. It is not in the catalogue. */
  const DefaultModelId: string := "llama-3.1-70b-versatile"

  datatype Provider = Groq | OpenAI

  /** What the server sends to a provider. The OpenAI request is given the stored history
      as it is, timestamps included; the Groq request gets it projected to role and content. */
  datatype Request =
    | GroqRequest(messages: seq<ChatMessage>, model: string, temperature: real,
                  maxTokens: nat, topP: real)
    | OpenAIRequest(history: seq<Msg>, model: string, temperature: real, maxTokens: nat,
                    presencePenalty: real, frequencyPenalty: real, topP: real)

  /** A thrown error as `handleAIError` reads it: `error.response?.status`, `error.code`
      and `error.message`. */
  datatype AiError = AiError(status: Option<int>, code: Option<string>, message: string)

  /** What a provider call comes back with: the contents of its choices, in order, or the
      error it rejected with. */
  datatype Completion = Answered(choices: seq<string>) | Rejected(error: AiError)

  /** The two events the transcript handler can emit to its session. */
  datatype Event = GptResponse(text: string, model: string) | ErrorEvent(message: string, details: string)

  const RateLimitMessage: string := "Rate limit exceeded. Please try again in a moment."
  const ConnectMessage: string := "Unable to connect to AI service. Please try again later."
  const GenericMessage: string := "An error occurred while processing your request."

  /** The TypeError raised by `modelConfig.provider` when the lookup found nothing. */
  const MissingConfigError: AiError :=
    AiError(None, None, "Cannot read properties of undefined (reading 'provider')")
  /** The TypeError raised by `completion.choices[0].message` when OpenAI returns no choice. */
  const MissingChoiceError: AiError :=
    AiError(None, None, "Cannot read properties of undefined (reading 'message')")
  /** The error `handleGroqResponse` throws when Groq returns no choice. */
  const InvalidGroqError: AiError := AiError(None, None, "Invalid response from GROQ API")

  /** `data.model || 'llama-3.1-70b-versatile'`: an absent or empty model field is falsy
      and selects the default; any other string is used as given. */
  function SelectModel(model: Option<string>): (id: string)
    ensures model.Some? && model.value != "" ==> id == model.value
    ensures model.None? || model.value == "" ==> id == DefaultModelId
  {
    match model
    case Some(m) => if m != "" then m else DefaultModelId
    case None => DefaultModelId
  }

  /** `AI_MODELS[id]`: the entry of the catalogue, or nothing for an unknown id. */
  function Lookup(id: string): (r: Option<ModelConfig>)
    ensures r.Some? <==> id in AiModels
    ensures r.Some? ==> r.value == AiModels[id]
  {
    if id in AiModels then Some(AiModels[id]) else None
  }

  /** `modelConfig.provider === 'groq'`, otherwise OpenAI. */
  function Route(cfg: ModelConfig): (p: Provider)
    ensures p == Groq <==> cfg.provider == "groq"
  {
    if cfg.provider == "groq" then Groq else OpenAI
  }

  /** The request for model `id` with entry `cfg`, shaped for the provider it routes to. */
  function BuildRequest(history: seq<Msg>, id: string, cfg: ModelConfig): (r: Request)
    ensures r.GroqRequest? <==> Route(cfg) == Groq
    ensures r.model == id && r.temperature == cfg.temperature && r.maxTokens == cfg.maxTokens
    ensures r.GroqRequest? ==> r.messages == Project(history) && r.topP == 1.0
    ensures r.OpenAIRequest? ==> r.history == history && r.topP == 0.9
                                 && r.presencePenalty == 0.6 && r.frequencyPenalty == 0.3
  {
    match Route(cfg)
    case Groq => GroqRequest(Project(history), id, cfg.temperature, cfg.maxTokens, 1.0)
    case OpenAI => OpenAIRequest(history, id, cfg.temperature, cfg.maxTokens, 0.6, 0.3, 0.9)
  }

  /** Reads the reply text out of a completion: the first choice's content, or the error
      the call raised, where a missing first choice raises a provider-specific error. */
  function ReadCompletion(req: Request, c: Completion): (r: Result)
    ensures r.Text? <==> c.Answered? && c.choices != []
    ensures r.Text? ==> r.text == c.choices[0]
    ensures c.Rejected? ==> r == Thrown(c.error)
    ensures c.Answered? && c.choices == [] ==>
              r == Thrown(if req.GroqRequest? then InvalidGroqError else MissingChoiceError)
  {
    match c
    case Rejected(e) => Thrown(e)
    case Answered(choices) =>
      if choices != [] then Text(choices[0])
      else if req.GroqRequest? then Thrown(InvalidGroqError)
      else Thrown(MissingChoiceError)
  }

  datatype Result = Text(text: string) | Thrown(error: AiError)

  /** `handleAIError`: status 429 first, then code ECONNREFUSED, otherwise the generic
      message; the details are always the error's own message. */
  function Classify(e: AiError): (ev: Event)
    ensures ev.ErrorEvent? && ev.details == e.message
    ensures ev.message == RateLimitMessage <==> e.status == Some(429)
    ensures ev.message == ConnectMessage <==> e.status != Some(429) && e.code == Some("ECONNREFUSED")
    ensures ev.message == GenericMessage <==> e.status != Some(429) && e.code != Some("ECONNREFUSED")
  {
    if e.status == Some(429) then ErrorEvent(RateLimitMessage, e.message)
    else if e.code == Some("ECONNREFUSED") then ErrorEvent(ConnectMessage, e.message)
    else ErrorEvent(GenericMessage, e.message)
  }

  /** What the transcript handler emits once the history is updated: look up the selected
      model, send one request to the provider it routes to, and emit the first choice or
      the classified error. `complete` stands for the provider's SDK call. */
  function Respond(history: seq<Msg>, model: Option<string>, complete: Request -> Completion): (ev: Event)
    ensures Lookup(SelectModel(model)).None? ==> ev == Classify(MissingConfigError)
    ensures ev.GptResponse? ==> ev.model == SelectModel(model) && SelectModel(model) in AiModels
    ensures ev.GptResponse? <==>
              SelectModel(model) in AiModels &&
              (var c := complete(BuildRequest(history, SelectModel(model), AiModels[SelectModel(model)]));
               c.Answered? && c.choices != [])
    ensures ev.GptResponse? ==>
              ev.text == complete(BuildRequest(history, ev.model, AiModels[ev.model])).choices[0]
    ensures SelectModel(model) in AiModels ==>
              var c := complete(BuildRequest(history, SelectModel(model), AiModels[SelectModel(model)]));
              c.Rejected? ==> ev == Classify(c.error)
    ensures SelectModel(model) in AiModels ==>
              var req := BuildRequest(history, SelectModel(model), AiModels[SelectModel(model)]);
              complete(req) == Answered([]) ==>
                ev == Classify(if req.GroqRequest? then InvalidGroqError else MissingChoiceError)
  {
    var id := SelectModel(model);
    match Lookup(id)
    case None => Classify(MissingConfigError)
    case Some(cfg) =>
      var req := BuildRequest(history, id, cfg);
      match ReadCompletion(req, complete(req))
      case Text(t) => GptResponse(t, id)
      case Thrown(e) => Classify(e)
  }

  /** A transcript without a model never reaches a provider: whatever the providers would
      answer, the handler emits the generic error about the missing configuration. */
  lemma DefaultModelFails(history: seq<Msg>, complete: Request -> Completion)
    ensures Respond(history, None, complete) == ErrorEvent(GenericMessage, MissingConfigError.message)
  {
    assert DefaultModelId !in AiModels;
  }

}
