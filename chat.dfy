/** The entries of a conversation history and their projection for the Groq API. */
module Chat {
  import opened Options

  datatype Role = System | User | Assistant

  /** One entry of a session's history array. The seeded system prompt carries no
      timestamp; every pushed entry carries the `Date.now()` of its push. */
  datatype Msg = Msg(role: Role, content: string, timestamp: Option<int>)

  /** An entry reduced to `{role, content}`, the shape the Groq request is given. */
  datatype ChatMessage = ChatMessage(role: Role, content: string)

  /** The system prompt's text, kept opaque: only its identity matters to the model. */
  const SystemPrompt: string := "You are Jinny, a playful and intuitive voice assistant."

  /** The entry a new session is seeded with. */
  const Seed: Msg := Msg(System, SystemPrompt, None)

  /** `messages.map(msg => ({role: msg.role, content: msg.content}))`: same length, same
      order, each entry keeps its role and content and loses its timestamp. */
  function Project(messages: seq<Msg>): (r: seq<ChatMessage>)
    ensures |r| == |messages|
    ensures forall i :: 0 <= i < |r| ==>
              r[i].role == messages[i].role && r[i].content == messages[i].content
  {
    if messages == [] then []
    else Project(messages[..|messages| - 1])
         + [ChatMessage(messages[|messages| - 1].role, messages[|messages| - 1].content)]
  }

}
