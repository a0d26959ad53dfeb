/**
 * The records exchanged with the backend, and the requests the client sends.
 * Responses are not fetched here: each operation that talks to the backend
 * takes the response (or its failure) as an input, and appends the request it
 * would send to a log, so that "which requests were made" can be stated.
 */
module Api {
  import opened Wrappers

  const UserRole: string := "user"
  const AssistantRole: string := "assistant"

  /** A chat message; `kind` is the optional `type` field (`"image"` marks an image URL). */
  datatype Message = Message(role: string, content: string, kind: Option<string>)

  datatype Attachment = Attachment(id: string, name: string, url: string)

  datatype SavedPrompt = SavedPrompt(id: int, title: string, prompt: string)

  /** The body of a `GET /chats/{id}/messages/` response. */
  datatype ChatData = ChatData(messages: seq<Message>, systemPrompt: string)

  datatype Payload =
    | SendBody(chatId: string, message: string, attachmentIds: seq<string>)
    | SystemPromptBody(systemPrompt: string)
    | SavedPromptBody(title: string, prompt: string)
    | FileBody(file: string)

  datatype Request =
    | Get(url: string)
    | Post(url: string, body: Payload)
    | Delete(url: string)
}
