/** The completion-service contract of src/gpt/NvidiaGPTService.ts. The call
    to the OpenAI-compatible endpoint is an oracle `api` from the request to
    what the endpoint does with it. */
module Gpt {
  import opened Wrappers
  import opened Text
  import opened Types

  /** The key the configuration template ships with. */
  const PlaceholderKey: string := "your_nvidia_api_key_here"

  /** `isConfigured`: a key is set and it is not the template's placeholder. */
  predicate IsConfigured(config: NvidiaConfig) {
    config.apiKey != "" && config.apiKey != PlaceholderKey
  }

  datatype Role = System | User

  datatype ChatMessage = ChatMessage(role: Role, content: string)

  /** The body of `chat.completions.create`. */
  datatype ChatRequest = ChatRequest(
    model: string, messages: seq<ChatMessage>,
    maxTokens: nat, temperature: int, topP: int, stream: bool)

  /** One completion choice: its `message` may be missing, and the message's
      `content` may be null. */
  datatype Choice = Choice(message: Option<Option<string>>)

  /** What the endpoint does with a request: it answers with a (possibly
      empty) list of choices, or it throws an error whose HTTP `status` may be
      absent. */
  datatype ApiReply = Answered(choices: seq<Choice>) | Threw(status: Option<int>)

  const SystemPreamble: string :=
    "Eres un asistente útil de WhatsApp. Responde de manera concisa y amigable. "

  /** The system prompt: the fixed preamble, followed by `Contexto: <context>`
      only when a non-empty context is given (an empty string is falsy). */
  function SystemPrompt(context: Option<string>): (r: string)
    ensures StartsWith(r, SystemPreamble)
    ensures context.None? || context.value == "" ==> r == SystemPreamble
    ensures context.Some? && context.value != "" ==>
      r[|SystemPreamble|..] == "Contexto: " + context.value
  {
    SystemPreamble + (if context.Some? && context.value != "" then "Contexto: " + context.value else "")
  }

  const MaxTokens: nat := 4096

  /** The request `generateResponse` sends: the configured model, then
      exactly two messages, the system prompt and the user's prompt. */
  function BuildRequest(config: NvidiaConfig, prompt: string, context: Option<string>): (r: ChatRequest)
    ensures r.model == config.model && |r.messages| == 2
    ensures r.messages[0] == ChatMessage(System, SystemPrompt(context))
    ensures r.messages[1] == ChatMessage(User, prompt)
  {
    ChatRequest(config.model,
      [ChatMessage(System, SystemPrompt(context)), ChatMessage(User, prompt)],
      MaxTokens, 1, 1, false)
  }

  const InvalidKey: string := "API key inválida"
  const RateLimited: string := "Rate limit exceeded"
  const Unavailable: string := "Service temporarily unavailable"

  /** The error `generateResponse` re-throws for a caught error with the
      given `status`. */
  function ErrorMessage(status: Option<int>): (r: string)
    ensures r == InvalidKey <==> status == Some(401)
    ensures r == RateLimited <==> status == Some(429)
    ensures r in {InvalidKey, RateLimited, Unavailable}
  {
    if status == Some(401) then InvalidKey
    else if status == Some(429) then RateLimited
    else Unavailable
  }

  /** One run of `generateResponse`: the request it sent to the endpoint,
      if any, and what it returned (`Ok`) or threw (`Err`). */
  datatype Generation = Generation(sent: Option<ChatRequest>, result: Result<string, string>)

  /** `generateResponse(prompt, context)`. Every error raised inside, whether
      the key check, the endpoint's error or a reply without a first choice
      or message, is caught and re-thrown through ErrorMessage; an error of
      its own has no status. */
  function GenerateResponse(config: NvidiaConfig, prompt: string, context: Option<string>,
                            api: ChatRequest -> ApiReply): (g: Generation)
    ensures g.sent.Some? <==> IsConfigured(config)
    ensures g.sent.Some? ==> g.sent.value == BuildRequest(config, prompt, context)
    ensures !IsConfigured(config) ==> g.result == Err(Unavailable)
    ensures g.result.Err? ==> g.result.error in {InvalidKey, RateLimited, Unavailable}
    ensures g.result.Ok? ==> Trimmed(g.result.value)
  {
    if config.apiKey == "" || config.apiKey == PlaceholderKey then
      Generation(None, Err(ErrorMessage(None)))
    else
      var request := BuildRequest(config, prompt, context);
      match api(request)
      case Threw(status) => Generation(Some(request), Err(ErrorMessage(status)))
      case Answered(choices) =>
        if choices == [] || choices[0].message.None? then
          Generation(Some(request), Err(ErrorMessage(None)))
        else
          var content := choices[0].message.value;
          Generation(Some(request), Ok(if content.Some? then Trim(content.value) else ""))
  }

  /** The outcome of `generateResponse` is decided by the endpoint's answer
      alone: it resolves exactly when the service is configured and the
      endpoint answers with a first choice that has a message; the reply is
      that message's content trimmed, and a null content gives the empty
      reply; a thrown status 401 or 429 gives its own error and anything else
      `Service temporarily unavailable`. */
  lemma GenerateResponseOutcome(config: NvidiaConfig, prompt: string, context: Option<string>,
                                api: ChatRequest -> ApiReply)
    requires IsConfigured(config)
    ensures var g := GenerateResponse(config, prompt, context, api);
      var reply := api(BuildRequest(config, prompt, context));
      && (g.result.Ok? <==> reply.Answered? && reply.choices != [] && reply.choices[0].message.Some?)
      && (g.result.Ok? && reply.choices[0].message.value.None? ==> g.result.value == "")
      && (reply.Answered? && reply.choices != [] && reply.choices[0].message.Some?
          && reply.choices[0].message.value.Some?
          ==> g.result == Ok(Trim(reply.choices[0].message.value.value)))
      && (reply.Threw? ==> g.result == Err(ErrorMessage(reply.status)))
      && (reply.Answered? && g.result.Err? ==> g.result.error == Unavailable)
  {
  }

  const TestPrompt: string := "Hola, ¿funcionas correctamente?"

  /** `testConnection`: whether a fixed test prompt resolves. */
  function TestConnection(config: NvidiaConfig, api: ChatRequest -> ApiReply): (ok: bool)
    ensures ok ==> IsConfigured(config)
    ensures ok <==> GenerateResponse(config, TestPrompt, None, api).result.Ok?
  {
    GenerateResponse(config, TestPrompt, None, api).result.Ok?
  }
}
