/** The records of the chat interface: citations, messages, requests and responses. */
module ChatModels {
  import opened Wrappers

  /** A quotation from a guide, with where it comes from. */
  datatype Citation = Citation(text: string, source: string, url: Option<string>)

  /** One message of a conversation; only the two roles match the field's pattern. */
  datatype ChatMessage = ChatMessage(role: string, content: string, citations: Option<seq<Citation>>)

  predicate ValidRole(m: ChatMessage) { m.role == "user" || m.role == "assistant" }

  /** The body of `POST /chat`. */
  datatype ChatRequest = ChatRequest(message: string, conversationId: Option<string>)

  datatype ChatResponse = ChatResponse(message: ChatMessage, conversationId: string)

  /** A history entry as the retrieval service receives it: `{"role": …, "content": …}`. */
  type Turn = (string, string)

  /** `[{"role": m.role, "content": m.content} for m in msgs]`. */
  function Turns(msgs: seq<ChatMessage>): (r: seq<Turn>)
    ensures |r| == |msgs|
    ensures forall i :: 0 <= i < |msgs| ==> r[i] == (msgs[i].role, msgs[i].content)
  {
    seq(|msgs|, i requires 0 <= i < |msgs| => (msgs[i].role, msgs[i].content))
  }
}
