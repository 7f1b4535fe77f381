/** The messages of a transcript, as far as planning a request and running tools look at them (src/core/message.rs). */
module Messages {
  import opened Wrappers

  const U32_MAX: nat := 0xFFFF_FFFF
  const U64_SIZE: nat := 0x1_0000_0000_0000_0000

  type U64 = n: nat | n < U64_SIZE

  datatype StopReason = Completed | Length | Errored | Aborted | Pending | Other(text: string)

  datatype ToolCall = ToolCall(id: string, name: string, arguments: string)

  /** An image is its base64 data. */
  datatype UserContent = UserText(text: string) | UserImage(data: string)
  datatype AssistantContent = Text(text: string) | Thinking(text: string) | Call(call: ToolCall)
  datatype ResultContent = ResultText(text: string) | ResultImage(data: string)

  /** `usage` is the number of input tokens the provider reported. */
  datatype Message =
    | User(content: seq<UserContent>)
    | Assistant(parts: seq<AssistantContent>, usage: Option<U64>, stopReason: Option<StopReason>)
    | ToolResult(callId: string, toolName: string, isError: bool, output: seq<ResultContent>)

  /** The tool calls of an assistant message, in order. */
  function CallsIn(parts: seq<AssistantContent>): seq<ToolCall> {
    if parts == [] then []
    else (if parts[0].Call? then [parts[0].call] else []) + CallsIn(parts[1..])
  }

  /** The calls of a message are those of its parts, in order. */
  lemma {:induction false} CallsJoin(a: seq<AssistantContent>, b: seq<AssistantContent>)
    ensures CallsIn(a + b) == CallsIn(a) + CallsIn(b)
    ensures |b| == 1 ==> CallsIn(b) == if b[0].Call? then [b[0].call] else []
    decreases |a|
  {
    if a == [] {
      assert a + b == b;
      if |b| == 1 { assert b[1..] == []; }
    } else {
      assert (a + b)[1..] == a[1..] + b;
      CallsJoin(a[1..], b);
    }
  }

  function CallsOf(m: Message): seq<ToolCall> {
    if m.Assistant? then CallsIn(m.parts) else []
  }
}
