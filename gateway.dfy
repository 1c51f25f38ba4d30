/**
 * The completion gateway (ChatAPI.create_chat_completion in api.py):
 * assemble the messages, build the parameter record from the keyword
 * arguments, call the upstream service, and turn anything it raises into an
 * error record instead of letting it escape.
 */
module Gateway {
  import opened Wrappers
  import opened Values
  import opened Config
  import opened Messages

  /** The keyword arguments of a completion request. */
  type Kwargs = map<string, Value>

  /** The parameter record passed to the upstream completion call. */
  datatype CompletionParams = CompletionParams(
    model: string,
    messages: seq<Message>,
    maxTokens: Value,
    temperature: Value,
    topP: Value,
    frequencyPenalty: Value,
    presencePenalty: Value,
    stop: Value,
    stream: Value)

  /** The documented default of each generation option, by its keyword. */
  const OPTION_DEFAULTS: map<string, Value> := map[
    "max_tokens" := JInt(800),
    "temperature" := JFloat(0.7),
    "top_p" := JFloat(0.95),
    "frequency_penalty" := JInt(0),
    "presence_penalty" := JInt(0),
    "stop" := JNull,
    "stream" := JBool(false)]

  /** `kwargs.get(key, default)`. */
  function Get(kwargs: Kwargs, key: string, default: Value): Value
  {
    if key in kwargs then kwargs[key] else default
  }

  /** The value the parameter record sends under `key`, for the keys that carry a plain value. */
  function ParamValue(p: CompletionParams, key: string): Option<Value>
  {
    if key == "model" then Some(JString(p.model))
    else if key == "max_tokens" then Some(p.maxTokens)
    else if key == "temperature" then Some(p.temperature)
    else if key == "top_p" then Some(p.topP)
    else if key == "frequency_penalty" then Some(p.frequencyPenalty)
    else if key == "presence_penalty" then Some(p.presencePenalty)
    else if key == "stop" then Some(p.stop)
    else if key == "stream" then Some(p.stream)
    else None
  }

  /**
   * The `params` dict: the configured deployment as the model, the given
   * messages, and each option as supplied (an explicit None included) or
   * else its default. Other keyword arguments are ignored.
   */
  function BuildParams(deployment: string, messages: seq<Message>, kwargs: Kwargs): (p: CompletionParams)
    ensures p.model == deployment && p.messages == messages
    ensures ParamValue(p, "model") == Some(JString(deployment))
    ensures forall key :: key in OPTION_DEFAULTS ==>
      ParamValue(p, key) == Some(if key in kwargs then kwargs[key] else OPTION_DEFAULTS[key])
  {
    CompletionParams(
      deployment,
      messages,
      Get(kwargs, "max_tokens", JInt(800)),
      Get(kwargs, "temperature", JFloat(0.7)),
      Get(kwargs, "top_p", JFloat(0.95)),
      Get(kwargs, "frequency_penalty", JInt(0)),
      Get(kwargs, "presence_penalty", JInt(0)),
      Get(kwargs, "stop", JNull),
      Get(kwargs, "stream", JBool(false)))
  }

  /** Keyword arguments that agree on every option key give the same parameter record. */
  lemma BuildParamsIgnoresOtherKeys(deployment: string, messages: seq<Message>, kwargs: Kwargs, other: Kwargs)
    requires forall key :: key in OPTION_DEFAULTS ==> (key in kwargs <==> key in other)
    requires forall key :: key in OPTION_DEFAULTS && key in kwargs ==> kwargs[key] == other[key]
    ensures BuildParams(deployment, messages, kwargs) == BuildParams(deployment, messages, other)
  {
  }

  /**
   * What the upstream step yields: the extracted, JSON-decoded completion
   * content, or the exception raised while invoking the service or
   * extracting its reply.
   */
  datatype UpstreamResult = Completed(content: Value) | Raised(error: Error)

  /** The upstream completion call made through a configured client; it is not part of this model. */
  type Upstream = (AzureClient, CompletionParams) -> UpstreamResult

  /** The except branch's record, `{"error": str(e), "type": type(e).__name__}`. */
  function ErrorRecord(e: Error): Value
  {
    JObject(map["error" := JString(e.message), "type" := JString(e.kind)])
  }

  /**
   * `create_chat_completion`: never raises. The upstream step receives the
   * configured client and exactly the parameter record built from the
   * configured deployment, the assembled messages and the keyword
   * arguments; its content is returned as it is, and whatever it raises
   * comes back as an error record carrying the message and the kind.
   */
  method CreateChatCompletion(config: ChatConfig, userMessage: string, systemMessage: Option<string>,
                              kwargs: Kwargs, upstream: Upstream)
    returns (response: Value)
    ensures var sent := BuildParams(config.deployment, AssembledMessages(userMessage, systemMessage), kwargs);
      match upstream(config.client, sent)
      case Completed(content) => response == content
      case Raised(e) =>
        && response.JObject?
        && response.fields.Keys == {"error", "type"}
        && response.fields["error"] == JString(e.message)
        && response.fields["type"] == JString(e.kind)
  {
    var messages := BuildMessages(userMessage, systemMessage);
    var params := BuildParams(config.deployment, messages, kwargs);
    var outcome := upstream(config.client, params);
    match outcome {
      case Completed(content) =>
        response := content;
      case Raised(e) =>
        response := ErrorRecord(e);
    }
  }
}
