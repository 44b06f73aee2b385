/** Local stand-ins for the cloud SDK's chat request and response types,
    reduced to the fields the adapters read or write. */
module Chat {
  import opened Common

  /** A structured turn of a generic chat request. */
  datatype Message = User(text: string) | Assistant(text: string)

  /** The request-specific part of a chat call: structured turns for the
      generic schema, one flat message for the Cohere schema. */
  datatype ChatPayload =
    | GenericChatRequest(
        messages: seq<Message>, maxTokens: int, temperature: real, topP: real, isStream: bool)
    | CohereChatRequest(
        message: string, maxTokens: int, temperature: real, topP: real, topK: int, isStream: bool)

  /** A chat call: the compartment it is billed to, the on-demand model and
      the payload. */
  datatype ChatRequest = ChatRequest(compartmentId: string, modelId: string, payload: ChatPayload)

  /** One item of a message's content. */
  datatype ChatContent = TextContent(text: Option<string>) | OtherContent(typeName: string)

  /** One choice of a generic chat response: the content of its message. */
  datatype ChatChoice = ChatChoice(content: seq<ChatContent>)

  /** The shapes a chat result can take; any other implementation of the
      SDK's response interface (or none) is known only by its type name. */
  datatype ChatResponse =
    | GenericChatResponse(choices: seq<ChatChoice>)
    | CohereChatResponse(text: Option<string>)
    | OtherChatResponse(typeName: string)

  /** The name `%T` prints for a response. */
  function TypeName(response: ChatResponse): string {
    match response
    case GenericChatResponse(_) => "generativeaiinference.GenericChatResponse"
    case CohereChatResponse(_) => "generativeaiinference.CohereChatResponse"
    case OtherChatResponse(name) => name
  }

  /** The generation settings both adapters send. */
  const MaxTokens: int := 600
  const Temperature: real := 0.1
  const TopP: real := 0.75
}
