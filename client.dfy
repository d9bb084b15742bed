/**
 * The request-shaping wrapper `OpenAIClient`: configuration resolved once from
 * an explicit argument and the process environment, the three ways of asking
 * the completion endpoint for a reply, and the conversion of every backend
 * failure into a returned "Error: ..." string.
 *
 * The vendor SDK is not modelled: the completion endpoint is an arbitrary
 * total function `Request -> Reply` handed to each call. It is deterministic:
 * the same request always gets the same reply.
 */
module Client {
  import opened Wrappers

  datatype Role = System | User | Assistant

  /** One `{"role": ..., "content": ...}` entry of a transcript. */
  datatype Message = Message(role: Role, content: string)

  /**
   * The process environment. String variables are looked up in `vars`.
   * MAX_TOKENS and TEMPERATURE are not looked up there: their values are
   * given only in `maxTokens` and `temperature`, already converted to
   * numbers (None when the variable is not set), so each variable has one
   * representation.
   */
  datatype Environment = Environment(vars: map<string, string>, maxTokens: Option<int>, temperature: Option<real>)

  /** The client's resolved, immutable configuration. */
  datatype Config = Config(apiKey: string, defaultModel: string, maxTokens: int, temperature: real)

  /** Per-call overrides of the configured defaults (the `**kwargs` of the source). */
  datatype Overrides = Overrides(model: Option<string>, maxTokens: Option<int>, temperature: Option<real>)

  /** What is sent to the completion endpoint. */
  datatype Request = Request(model: string, messages: seq<Message>, maxTokens: int, temperature: real)

  /** What the completion endpoint answers: the text of each choice, or a raised error's text. */
  datatype Reply = Completion(choices: seq<string>) | Failed(reason: string)

  const API_KEY_VAR := "OPENAI_API_KEY"
  const MODEL_VAR := "DEFAULT_MODEL"
  const FALLBACK_MODEL := "gpt-3.5-turbo"
  const FALLBACK_MAX_TOKENS := 1500
  const FALLBACK_TEMPERATURE := 0.7
  const MISSING_KEY := "OpenAI API key not found. Please set OPENAI_API_KEY environment variable."
  const ERROR_PREFIX := "Error: "
  /** Python's message for `choices[0]` on an empty list. */
  const INDEX_ERROR := "list index out of range"

  const NoOverrides := Overrides(None, None, None)

  /** `os.getenv(name)`. */
  function GetEnv(env: Environment, name: string): Option<string> {
    if name in env.vars then Some(env.vars[name]) else None
  }

  /** Python truthiness of an optional string: neither None nor "". */
  predicate Truthy(s: Option<string>) {
    s.Some? && s.value != ""
  }

  /** Python truthiness of an optional int: neither None nor 0. */
  predicate TruthyInt(n: Option<int>) {
    n.Some? && n.value != 0
  }

  /** Python truthiness of an optional float: neither None nor 0.0. */
  predicate TruthyReal(t: Option<real>) {
    t.Some? && t.value != 0.0
  }

  /**
   * `OpenAIClient(api_key)`: the key is the argument when truthy, else the
   * environment's OPENAI_API_KEY; a falsy result raises a configuration error.
   * The defaults come from the environment, with the documented fallbacks
   * used only when a variable is not set at all.
   */
  function NewClient(apiKey: Option<string>, env: Environment): (r: Result<Config, string>)
    ensures r.Err? <==> !Truthy(apiKey) && !Truthy(GetEnv(env, API_KEY_VAR))
    ensures r.Err? ==> r.error == MISSING_KEY
    ensures r.Ok? ==> r.value.apiKey != ""
    ensures Truthy(apiKey) ==> r.Ok? && r.value.apiKey == apiKey.value
    ensures r.Ok? && !Truthy(apiKey) ==> API_KEY_VAR in env.vars && r.value.apiKey == env.vars[API_KEY_VAR]
    ensures r.Ok? && MODEL_VAR !in env.vars ==> r.value.defaultModel == FALLBACK_MODEL
    ensures r.Ok? && MODEL_VAR in env.vars ==> r.value.defaultModel == env.vars[MODEL_VAR]
    ensures r.Ok? ==> r.value.maxTokens == (if env.maxTokens.Some? then env.maxTokens.value else FALLBACK_MAX_TOKENS)
    ensures r.Ok? ==> r.value.temperature == (if env.temperature.Some? then env.temperature.value else FALLBACK_TEMPERATURE)
  {
    var key := if Truthy(apiKey) then apiKey else GetEnv(env, API_KEY_VAR);
    if !Truthy(key) then
      Err(MISSING_KEY)
    else
      var model := match GetEnv(env, MODEL_VAR) case Some(m) => m case None => FALLBACK_MODEL;
      var maxTokens := match env.maxTokens case Some(n) => n case None => FALLBACK_MAX_TOKENS;
      var temperature := match env.temperature case Some(t) => t case None => FALLBACK_TEMPERATURE;
      Ok(Config(key.value, model, maxTokens, temperature))
  }

  /**
   * The request `chat_completion` sends: each override is used only when it
   * is truthy, so an explicit "" model, 0 max tokens or 0.0 temperature falls
   * back to the configured default. The messages go through untouched.
   */
  function BuildRequest(cfg: Config, messages: seq<Message>, ov: Overrides): (q: Request)
    ensures q.messages == messages
    ensures Truthy(ov.model) ==> q.model == ov.model.value
    ensures !Truthy(ov.model) ==> q.model == cfg.defaultModel
    ensures TruthyInt(ov.maxTokens) ==> q.maxTokens == ov.maxTokens.value
    ensures !TruthyInt(ov.maxTokens) ==> q.maxTokens == cfg.maxTokens
    ensures TruthyReal(ov.temperature) ==> q.temperature == ov.temperature.value
    ensures !TruthyReal(ov.temperature) ==> q.temperature == cfg.temperature
  {
    Request(
      if Truthy(ov.model) then ov.model.value else cfg.defaultModel,
      messages,
      if TruthyInt(ov.maxTokens) then ov.maxTokens.value else cfg.maxTokens,
      if TruthyReal(ov.temperature) then ov.temperature.value else cfg.temperature)
  }

  /** Whether a reply is turned into an error string: a raised error, or no choice to take. */
  predicate IsError(reply: Reply) {
    reply.Failed? || reply.choices == []
  }

  /**
   * The string `chat_completion` returns for a reply: the first choice's
   * content, or "Error: " followed by the error's text, never an exception.
   */
  function ReplyText(reply: Reply): (s: string)
    ensures !IsError(reply) ==> s == reply.choices[0]
    ensures reply.Failed? ==> s == ERROR_PREFIX + reply.reason
    ensures reply.Completion? && reply.choices == [] ==> s == ERROR_PREFIX + INDEX_ERROR
  {
    match reply
    case Failed(reason) => ERROR_PREFIX + reason
    case Completion(choices) => if |choices| > 0 then choices[0] else ERROR_PREFIX + INDEX_ERROR
  }

  /** Every failure reaches the caller as a string starting with "Error: ". */
  lemma ErrorsBecomePrefixedText(reply: Reply)
    requires IsError(reply)
    ensures ERROR_PREFIX <= ReplyText(reply)
  {
  }

  /**
   * Success and failure share one return channel: a genuine reply whose text
   * is "Error: x" cannot be told apart from a backend failure with reason x.
   */
  lemma SuccessAndFailureConflated(reason: string)
    ensures ReplyText(Completion([ERROR_PREFIX + reason])) == ReplyText(Failed(reason))
    ensures !IsError(Completion([ERROR_PREFIX + reason])) && IsError(Failed(reason))
  {
  }

  /**
   * `chat_completion(messages, model, max_tokens, temperature)`: the backend
   * receives exactly the given messages with the selected parameters, and its
   * reply is turned into text.
   */
  function ChatCompletion(cfg: Config, messages: seq<Message>, ov: Overrides, backend: Request -> Reply): (s: string)
    ensures var reply := backend(BuildRequest(cfg, messages, ov));
      && (!IsError(reply) ==> s == reply.choices[0])
      && (reply.Failed? ==> s == ERROR_PREFIX + reply.reason)
      && (IsError(reply) ==> ERROR_PREFIX <= s)
  {
    ReplyText(backend(BuildRequest(cfg, messages, ov)))
  }

  /** With no overrides the request carries the configured defaults. */
  lemma DefaultsWithoutOverrides(cfg: Config, messages: seq<Message>)
    ensures BuildRequest(cfg, messages, NoOverrides) == Request(cfg.defaultModel, messages, cfg.maxTokens, cfg.temperature)
  {
  }

  /** An explicit 0 for max tokens or 0.0 for temperature is treated as absent. */
  lemma ZeroOverridesFallBack(cfg: Config, messages: seq<Message>, model: Option<string>)
    ensures var q := BuildRequest(cfg, messages, Overrides(model, Some(0), Some(0.0)));
      q.maxTokens == cfg.maxTokens && q.temperature == cfg.temperature
  {
  }

  /** The transcript `simple_completion` dispatches: one user message holding the prompt. */
  function SimpleMessages(prompt: string): (ms: seq<Message>)
    ensures |ms| == 1 && ms[0].role == User && ms[0].content == prompt
  {
    [Message(User, prompt)]
  }

  /** The transcript `conversation` dispatches: the system prompt, then the user message. */
  function ConversationMessages(systemPrompt: string, userMessage: string): (ms: seq<Message>)
    ensures |ms| == 2
    ensures ms[0].role == System && ms[0].content == systemPrompt
    ensures ms[1].role == User && ms[1].content == userMessage
  {
    [Message(System, systemPrompt), Message(User, userMessage)]
  }

  /** `simple_completion(prompt, **kwargs)`: the overrides are passed on unchanged. */
  function SimpleCompletion(cfg: Config, prompt: string, ov: Overrides, backend: Request -> Reply): (s: string)
    ensures s == ReplyText(backend(BuildRequest(cfg, [Message(User, prompt)], ov)))
  {
    ChatCompletion(cfg, SimpleMessages(prompt), ov, backend)
  }

  /** `conversation(system_prompt, user_message, **kwargs)`: the overrides are passed on unchanged. */
  function Conversation(cfg: Config, systemPrompt: string, userMessage: string, ov: Overrides, backend: Request -> Reply): (s: string)
    ensures s == ReplyText(backend(BuildRequest(cfg, [Message(System, systemPrompt), Message(User, userMessage)], ov)))
  {
    ChatCompletion(cfg, ConversationMessages(systemPrompt, userMessage), ov, backend)
  }
}
