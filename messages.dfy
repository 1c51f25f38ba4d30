/**
 * The message list of a completion request (ChatAPI._build_messages in
 * api.py): a system message, then the user's message, each carrying one
 * text block.
 */
module Messages {
  import opened Wrappers
  import opened Values

  const SYSTEM_ROLE := "system"
  const USER_ROLE := "user"
  const TEXT_TYPE := "text"
  /** The persona used when the caller gives no system message, or an empty one. */
  const DEFAULT_PERSONA := "You are an AI assistant that helps people find information."

  /** One entry of a message's content list, `{"type": kind, "text": text}`. */
  datatype ContentPart = ContentPart(kind: string, text: string)

  /** `{"role": role, "content": content}`. */
  datatype Message = Message(role: string, content: seq<ContentPart>)

  /** A message whose content is the single text block `text`. */
  function TextMessage(role: string, text: string): Message
  {
    Message(role, [ContentPart(TEXT_TYPE, text)])
  }

  /** The list that BuildMessages returns, as a value for the functions that need it. */
  function AssembledMessages(userMessage: string, systemMessage: Option<string>): seq<Message>
  {
    var systemText := if Truthy(systemMessage) then systemMessage.value else DEFAULT_PERSONA;
    [TextMessage(SYSTEM_ROLE, systemText), TextMessage(USER_ROLE, userMessage)]
  }

  /**
   * `_build_messages`: start from the empty list and append the system
   * entry, then the user entry. A system message is used when it is truthy,
   * that is present and not empty.
   */
  method BuildMessages(userMessage: string, systemMessage: Option<string>) returns (messages: seq<Message>)
    ensures |messages| == 2
    ensures messages[0].role == SYSTEM_ROLE && messages[1].role == USER_ROLE
    ensures forall k :: 0 <= k < |messages| ==> |messages[k].content| == 1 && messages[k].content[0].kind == TEXT_TYPE
    ensures systemMessage.Some? && systemMessage.value != "" ==> messages[0].content[0].text == systemMessage.value
    ensures systemMessage.None? || systemMessage.value == "" ==> messages[0].content[0].text == DEFAULT_PERSONA
    ensures messages[1].content[0].text == userMessage
    ensures messages == AssembledMessages(userMessage, systemMessage)
  {
    messages := [];
    if Truthy(systemMessage) {
      messages := messages + [TextMessage(SYSTEM_ROLE, systemMessage.value)];
    } else {
      messages := messages + [TextMessage(SYSTEM_ROLE, DEFAULT_PERSONA)];
    }
    messages := messages + [TextMessage(USER_ROLE, userMessage)];
  }
}
