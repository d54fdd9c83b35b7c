/** The session table shared by the two services: a chat id maps to the ordered
    list of role-tagged turns that is sent to the language model on every call. */
module Chats {

  /** A chat id is an opaque token (a UUID string in the service). */
  type ChatId = string

  datatype Role = System | User | Assistant

  /** One entry of a chat history: `{"role": ..., "content": ...}`. */
  datatype Turn = Turn(role: Role, content: string)

  /** The process-wide `chats` dictionary. */
  type Store = map<ChatId, seq<Turn>>

  datatype Result<T, E> = Success(value: T) | Failure(error: E)

  /** An `HTTPException`: status code and detail text. */
  datatype HttpError = HttpError(status: nat, detail: string)

  /** Raised by every handler for an id that is not in the store. */
  const NotFound: HttpError := HttpError(404, "Chat not found")

  /** What the handlers' outer `except Exception` turns any other failure into. */
  function Internal(cause: string): HttpError
  {
    HttpError(500, "Error processing chat: " + cause)
  }

  /** The body of `GET /chats/{chat_id}`. */
  datatype ChatHistory = ChatHistory(chatId: ChatId, messages: seq<Turn>)
}
