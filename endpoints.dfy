/**
 * The HTTP boundary (chat_endpoint and health_check in api.py): pass every
 * field of a chat request to the gateway, answer 500 when the gateway's
 * response carries the error marker, and answer liveness probes.
 */
module Endpoints {
  import opened Wrappers
  import opened Values
  import opened Config
  import opened Messages
  import opened Gateway

  const HTTP_OK: nat := 200
  const HTTP_SERVER_ERROR: nat := 500

  /** A reply with a JSON body, or an HTTP error whose detail is not modelled. */
  datatype HttpReply = Reply(status: nat, body: Value) | ErrorReply(status: nat)

  /** A validated `ChatRequest` body. */
  datatype ChatRequest = ChatRequest(
    userMessage: string,
    systemMessage: Option<string>,
    maxTokens: Value,
    temperature: Value,
    topP: Value,
    frequencyPenalty: Value,
    presencePenalty: Value,
    stop: Value,
    stream: Value)

  /** The request a body holding only the two messages validates to: every option at its field default. */
  function RequestWithDefaults(userMessage: string, systemMessage: Option<string>): ChatRequest
  {
    ChatRequest(userMessage, systemMessage, JInt(800), JFloat(0.7), JFloat(0.95), JInt(0), JInt(0), JNull, JBool(false))
  }

  /** The keyword arguments chat_endpoint passes to the gateway: every option of the request, always. */
  function RequestKwargs(request: ChatRequest): Kwargs
  {
    map[
      "max_tokens" := request.maxTokens,
      "temperature" := request.temperature,
      "top_p" := request.topP,
      "frequency_penalty" := request.frequencyPenalty,
      "presence_penalty" := request.presencePenalty,
      "stop" := request.stop,
      "stream" := request.stream]
  }

  /** On the HTTP path every option comes from the request; no gateway default is used. */
  lemma EndpointSendsRequestOptions(deployment: string, messages: seq<Message>, request: ChatRequest)
    ensures BuildParams(deployment, messages, RequestKwargs(request)) ==
      CompletionParams(deployment, messages, request.maxTokens, request.temperature, request.topP,
                       request.frequencyPenalty, request.presencePenalty, request.stop, request.stream)
  {
  }

  /** The request's field defaults agree with the gateway's: omitting an option in the body is omitting it in the call. */
  lemma RequestDefaultsAgreeWithGateway(deployment: string, messages: seq<Message>, userMessage: string, systemMessage: Option<string>)
    ensures BuildParams(deployment, messages, RequestKwargs(RequestWithDefaults(userMessage, systemMessage))) ==
      BuildParams(deployment, messages, map[])
  {
  }

  /**
   * The error dispatch of chat_endpoint, with the success value returned
   * as the reply body. `"error" in response` answering true raises an
   * HTTPException, and `in` raising TypeError (for a number, bool or None)
   * is an exception too; the outer except turns both into a 500.
   */
  function Dispatch(response: Value): (reply: HttpReply)
    ensures reply.status == HTTP_OK || reply.status == HTTP_SERVER_ERROR
    ensures reply.status == HTTP_OK <==> Contains(response, "error") == Some(false)
    ensures reply.status == HTTP_OK ==> reply == Reply(HTTP_OK, response)
    ensures response.JObject? && "error" in response.fields ==> reply.status == HTTP_SERVER_ERROR
  {
    match Contains(response, "error")
    case None => ErrorReply(HTTP_SERVER_ERROR)
    case Some(true) => ErrorReply(HTTP_SERVER_ERROR)
    case Some(false) => Reply(HTTP_OK, response)
  }

  /**
   * `response.completion` on a value decoded from JSON: dicts, lists,
   * strings, numbers, booleans and None have no attribute of that name.
   */
  function CompletionAttribute(response: Value): Result<Value, Error>
  {
    Failure(Error("AttributeError", "'" + TypeName(response) + "' object has no attribute 'completion'"))
  }

  /**
   * chat_endpoint's dispatch as written: after the error check it reads
   * `response.completion.choices[0].message.content`, which fails at its
   * first step, and the outer except turns that into a 500.
   */
  function DispatchAsWritten(response: Value): (reply: HttpReply)
    ensures Contains(response, "error") != Some(false) ==> reply == ErrorReply(HTTP_SERVER_ERROR)
  {
    match Contains(response, "error")
    case None => ErrorReply(HTTP_SERVER_ERROR)
    case Some(true) => ErrorReply(HTTP_SERVER_ERROR)
    case Some(false) =>
      match CompletionAttribute(response)
      case Failure(_) => ErrorReply(HTTP_SERVER_ERROR)
      case Success(content) => Reply(HTTP_OK, content)
  }

  /** As written, the chat endpoint answers 500 whatever the gateway returns. */
  lemma DispatchAsWrittenAlwaysFails(response: Value)
    ensures DispatchAsWritten(response) == ErrorReply(HTTP_SERVER_ERROR)
  {
  }

  /** The reply "Hi there!" from a healthy upstream: 500 as written, 200 with that body once corrected. */
  lemma GreetingReplyDiffers()
    ensures DispatchAsWritten(JString("Hi there!")).status == HTTP_SERVER_ERROR
    ensures Dispatch(JString("Hi there!")) == Reply(HTTP_OK, JString("Hi there!"))
  {
    var hay := "Hi there!";
    forall i: nat ensures !OccursAt("error", hay, i) {
      if i + 5 <= |hay| {
        assert hay[i..i + 5][0] == hay[i] != 'e';
      }
    }
  }

  /**
   * The corrected dispatch keeps line 169's check as it is: completed text
   * that contains "error" anywhere, or a list holding the string "error",
   * is still answered 500.
   */
  lemma ErrorTextIsServerError()
    ensures Dispatch(JString("no error")) == ErrorReply(HTTP_SERVER_ERROR)
    ensures Dispatch(JArray([JString("error")])) == ErrorReply(HTTP_SERVER_ERROR)
  {
  }

  /** Whatever the upstream step raises, the gateway's record makes the endpoint answer 500. */
  lemma RaisedErrorBecomesServerError(e: Error)
    ensures Dispatch(ErrorRecord(e)) == ErrorReply(HTTP_SERVER_ERROR)
  {
  }

  /**
   * `chat_endpoint`: hand the request's messages and options to the gateway
   * and dispatch on its response. A raised upstream failure is always a 500;
   * completed content is answered by Dispatch.
   */
  method ChatEndpoint(config: ChatConfig, request: ChatRequest, upstream: Upstream) returns (reply: HttpReply)
    ensures var sent := CompletionParams(
        config.deployment, AssembledMessages(request.userMessage, request.systemMessage),
        request.maxTokens, request.temperature, request.topP,
        request.frequencyPenalty, request.presencePenalty, request.stop, request.stream);
      match upstream(config.client, sent)
      case Raised(_) => reply == ErrorReply(HTTP_SERVER_ERROR)
      case Completed(content) => reply == Dispatch(content)
  {
    var response := CreateChatCompletion(config, request.userMessage, request.systemMessage,
                                         RequestKwargs(request), upstream);
    EndpointSendsRequestOptions(config.deployment, AssembledMessages(request.userMessage, request.systemMessage), request);
    ghost var outcome := upstream(config.client, BuildParams(config.deployment,
        AssembledMessages(request.userMessage, request.systemMessage), RequestKwargs(request)));
    if outcome.Raised? {
      RaisedErrorBecomesServerError(outcome.error);
      assert response == ErrorRecord(outcome.error);
    }
    reply := Dispatch(response);
  }

  /** `health_check`: always healthy, without consulting the configuration or the upstream service. */
  function HealthCheck(): (reply: HttpReply)
    ensures reply.status == HTTP_OK && reply.Reply?
    ensures reply.body == JObject(map["status" := JString("healthy")])
  {
    Reply(HTTP_OK, JObject(map["status" := JString("healthy")]))
  }
}
