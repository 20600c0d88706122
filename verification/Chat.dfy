/** Chat messages (src/llm/provider.rs) and the tool-call protocol they must obey. */
module Chat {
  import opened Wrappers

  /** A JSON value that is only passed along, as its compact rendering. */
  type Json = string

  datatype Role = System | User | Assistant | Tool

  datatype ToolCall = ToolCall(id: string, name: string, arguments: Json)

  datatype ChatMessage = ChatMessage(
    role: Role,
    content: string,
    toolCallId: Option<string>,
    name: Option<string>,
    toolCalls: Option<seq<ToolCall>>)

  function SystemMessage(content: string): ChatMessage {
    ChatMessage(System, content, None, None, None)
  }

  function UserMessage(content: string): ChatMessage {
    ChatMessage(User, content, None, None, None)
  }

  function AssistantMessage(content: string): ChatMessage {
    ChatMessage(Assistant, content, None, None, None)
  }

  /** A message that declares no call at all carries no tool-call list. */
  function AssistantWithToolCalls(content: Option<string>, calls: seq<ToolCall>): ChatMessage {
    ChatMessage(Assistant, if content.Some? then content.value else "", None, None,
                if calls == [] then None else Some(calls))
  }

  function ToolResult(id: string, name: string, content: string): ChatMessage {
    ChatMessage(Tool, content, Some(id), Some(name), None)
  }

  predicate AnswersCall(call: ToolCall, m: ChatMessage) {
    m.role == Tool && m.toolCalls.None? && m.toolCallId == Some(call.id) && m.name == Some(call.name)
  }

  /** `results` answers exactly `calls`, one result a call, in order. */
  predicate Answers(calls: seq<ToolCall>, results: seq<ChatMessage>) {
    |results| == |calls| && forall i :: 0 <= i < |calls| ==> AnswersCall(calls[i], results[i])
  }

  /** Every message that declares tool calls is an assistant message followed at once by
      exactly its results in order, and no result stands anywhere else. */
  predicate Protocol(ms: seq<ChatMessage>)
    decreases |ms|
  {
    if ms == [] then true
    else if ms[0].toolCalls.Some? then
      var calls := ms[0].toolCalls.value;
      && ms[0].role == Assistant
      && calls != []
      && |calls| < |ms|
      && Answers(calls, ms[1..1 + |calls|])
      && Protocol(ms[1 + |calls|..])
    else
      ms[0].role != Tool && Protocol(ms[1..])
  }

  lemma {:induction false} SliceConcat(a: seq<ChatMessage>, b: seq<ChatMessage>, n: nat)
    requires 1 <= n <= |a|
    ensures (a + b)[0] == a[0] && (a + b)[1..n] == a[1..n] && (a + b)[n..] == a[n..] + b
  {
  }

  lemma {:induction false} ProtocolConcat(a: seq<ChatMessage>, b: seq<ChatMessage>)
    requires Protocol(a) && Protocol(b)
    ensures Protocol(a + b)
    decreases |a|
  {
    if a == [] {
      assert a + b == b;
    } else if a[0].toolCalls.Some? {
      var n := 1 + |a[0].toolCalls.value|;
      ProtocolConcat(a[n..], b);
      SliceConcat(a, b, n);
    } else {
      ProtocolConcat(a[1..], b);
      SliceConcat(a, b, 1);
    }
  }

  /** A well-formed list can be cut before any message that is not a tool result. */
  lemma {:induction false} ProtocolSplit(a: seq<ChatMessage>, b: seq<ChatMessage>)
    requires Protocol(a + b) && (b != [] ==> b[0].role != Tool)
    ensures Protocol(a) && Protocol(b)
    decreases |a|
  {
    var ms := a + b;
    if a == [] {
      assert ms == b;
    } else if a[0].toolCalls.Some? {
      var n := 1 + |a[0].toolCalls.value|;
      forall i | 1 <= i < n ensures ms[i].role == Tool {
        assert ms[i] == ms[1..n][i - 1];
      }
      assert b != [] ==> ms[|a|] == b[0];
      assert n <= |a|;
      assert ms[n..] == a[n..] + b;
      assert ms[1..n] == a[1..n];
      ProtocolSplit(a[n..], b);
    } else {
      assert ms[1..] == a[1..] + b;
      ProtocolSplit(a[1..], b);
    }
  }
}
