/** Conversation messages, and what a model sees of them. A Go string is a string of bytes, so each `char`
here stands for one byte and `|s|` is `len(s)`. */
module Messages {

  const USER := "user"
  const ASSISTANT := "assistant"
  const TOOL := "tool"
  const SYSTEM := "system"

  datatype ToolCall = ToolCall(id: string, name: string, args: string)

  datatype Message = Message(role: string, text: string, toolCalls: seq<ToolCall>, toolCallId: string, timestamp: int)

  function Note(role: string, text: string): Message { Message(role, text, [], "", 0) }
  function Reply(text: string, calls: seq<ToolCall>): Message { Message(ASSISTANT, text, calls, "", 0) }
  function Answer(call: ToolCall, text: string): Message { Message(TOOL, text, [], call.id, 0) }

  /** The part of a message that reaches the model: all but the timestamp. */
  datatype Seen = Seen(role: string, text: string, toolCallId: string, calls: seq<ToolCall>)

  function See(m: Message): Seen { Seen(m.role, m.text, m.toolCallId, m.toolCalls) }

  function SeeAll(ms: seq<Message>): (r: seq<Seen>)
    ensures |r| == |ms| && forall i :: 0 <= i < |ms| ==> r[i] == See(ms[i])
  {
    seq(|ms|, i requires 0 <= i < |ms| => See(ms[i]))
  }

  lemma SeeAllAppend(a: seq<Message>, b: seq<Message>)
    ensures SeeAll(a + b) == SeeAll(a) + SeeAll(b)
  {
  }
}
