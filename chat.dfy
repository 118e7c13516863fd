/**
 * The chat record of backend/src/models/Chat.ts: an ordered list of messages
 * and a `context` string that caches the web sources of the conversation as
 * JSON.
 */
module ChatModel {
  import opened Wrappers

  type ChatId = string

  datatype Role = User | Assistant

  datatype Message = Message(role: Role, content: string)

  /** One scraped page, as the cached context lists it. */
  datatype WebSource = WebSource(url: string, content: string)

  /** The stored `context` string, seen through `JSON.parse`: the empty string
      (the schema's default), the JSON text of a list of sources, or text that
      does not parse. */
  datatype StoredContext = Blank | Json(sources: seq<WebSource>) | Malformed

  datatype Chat = Chat(messages: seq<Message>, context: StoredContext)

  /** The schema's `enum: ['user', 'assistant']`: the role a string names, if any. */
  function ParseRole(s: string): Option<Role>
  {
    if s == "user" then Some(User)
    else if s == "assistant" then Some(Assistant)
    else None
  }

  /** The schema's `required: true` on `content`, which rejects the empty string
      when the chat is saved. */
  predicate Storable(m: Message)
  {
    m.content != ""
  }
}
