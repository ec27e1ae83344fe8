/** Record shapes shared by the chatbot, the chat persistence layer and the
    tool dispatcher: the dictionaries the Python code passes around. */
module Conversation {

  datatype Option<+T> = None | Some(value: T)

  /** One element of the chatbot's context list: a role/content record with an
      optional `saved` key (None when the key is absent, as on the developer
      entry the chatbot starts with). */
  datatype Entry = Entry(role: string, content: string, saved: Option<bool>)

  /** The role/content pair sent to the language model. */
  datatype Message = Message(role: string, content: string)

  /** What the chatbot reads from a model response: the role of its last output
      item, its output text, and `usage.total_tokens` (None when that lookup
      raises). */
  datatype Response = Response(role: string, text: string, totalTokens: Option<int>)

  /** A locally made reply carrying a fixed text; it reports no token usage. */
  function MakeupResponse(text: string): Response
  {
    Response("assistant", text, None)
  }
}
