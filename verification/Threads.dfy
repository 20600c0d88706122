/** Threads of turns (src/agent/session.rs): printing turns as a flat list of chat
    messages and parsing any message list back into turns. */
module Threads {
  import opened Wrappers
  import opened Chat
  import opened CallIds
  import opened Preview

  /** A JSON tool output: a string, or any other value with its compact rendering. */
  datatype ToolOutput = Text(s: string) | Structured(rendering: string)

  datatype TurnToolCall = TurnToolCall(
    name: string, parameters: Json, result: Option<ToolOutput>, error: Option<string>)

  datatype TurnState = InProgress | Completed | Failed | Interrupted

  datatype Turn = Turn(
    turnNumber: nat,
    userInput: string,
    response: Option<string>,
    toolCalls: seq<TurnToolCall>,
    state: TurnState,
    error: Option<string>)

  datatype ThreadState = Idle | Processing | AwaitingApproval | Done | Stopped

  function NewTurn(number: nat, userInput: string): Turn {
    Turn(number, userInput, None, [], InProgress, None)
  }

  function CompletedTurn(t: Turn, response: string): Turn {
    t.(response := Some(response), state := Completed)
  }

  function NewCall(name: string, parameters: Json): TurnToolCall {
    TurnToolCall(name, parameters, None, None)
  }

  /** `record_tool_result` and `record_tool_error` write the last call only. */
  function WithResult(t: Turn, result: ToolOutput): Turn {
    if t.toolCalls == [] then t else
      var n := |t.toolCalls| - 1;
      t.(toolCalls := t.toolCalls[n := t.toolCalls[n].(result := Some(result))])
  }

  function WithError(t: Turn, error: string): Turn {
    if t.toolCalls == [] then t else
      var n := |t.toolCalls| - 1;
      t.(toolCalls := t.toolCalls[n := t.toolCalls[n].(error := Some(error))])
  }

  // ---- printing ----

  /** The text a call's result is printed from, if it has one. */
  function RawContent(c: TurnToolCall): Option<string> {
    match (c.error, c.result)
    case (Some(e), _) => Some(e)
    case (None, Some(Text(s))) => Some(s)
    case (None, Some(Structured(r))) => Some(r)
    case (None, None) => None
  }

  function CallContent(c: TurnToolCall): string {
    if RawContent(c).Some? then TruncatePreview(RawContent(c).value, PREVIEW_BYTES) else "OK"
  }

  function Declared(number: nat, calls: seq<TurnToolCall>): seq<ToolCall> {
    seq(|calls|, i requires 0 <= i < |calls| => ToolCall(CallId(number, i), calls[i].name, calls[i].parameters))
  }

  function Results(number: nat, calls: seq<TurnToolCall>): seq<ChatMessage> {
    seq(|calls|, i requires 0 <= i < |calls| => ToolResult(CallId(number, i), calls[i].name, CallContent(calls[i])))
  }

  function PrintCalls(t: Turn): seq<ChatMessage> {
    if t.toolCalls == [] then []
    else [AssistantWithToolCalls(None, Declared(t.turnNumber, t.toolCalls))] + Results(t.turnNumber, t.toolCalls)
  }

  function PrintResponse(t: Turn): seq<ChatMessage> {
    if t.response.Some? then [AssistantMessage(t.response.value)] else []
  }

  function PrintTurn(t: Turn): seq<ChatMessage> {
    [UserMessage(t.userInput)] + (PrintCalls(t) + PrintResponse(t))
  }

  function Print(turns: seq<Turn>): seq<ChatMessage> {
    if turns == [] then [] else PrintTurn(turns[0]) + Print(turns[1..])
  }

  // ---- parsing ----

  predicate DeclaresCalls(m: ChatMessage) { m.role == Assistant && m.toolCalls.Some? }

  predicate IsResponse(m: ChatMessage) { m.role == Assistant && m.toolCalls.None? }

  function FreshCalls(calls: seq<ToolCall>): seq<TurnToolCall> {
    seq(|calls|, i requires 0 <= i < |calls| => NewCall(calls[i].name, calls[i].arguments))
  }

  /** The number of tool messages a list starts with. */
  function ToolRun(ms: seq<ChatMessage>): (n: nat)
    ensures n <= |ms|
  {
    if ms == [] || ms[0].role != Tool then 0 else 1 + ToolRun(ms[1..])
  }

  /** Tool messages fill results from position `at` on; surplus ones are dropped. */
  function Fill(calls: seq<TurnToolCall>, at: nat, results: seq<ChatMessage>): seq<TurnToolCall>
    decreases results
  {
    if results == [] then calls
    else
      var filled := if at < |calls| then calls[at := calls[at].(result := Some(Text(results[0].content)))] else calls;
      Fill(filled, at + 1, results[1..])
  }

  /** All rounds of tool calls a list starts with, added to `calls`, and what follows. */
  function ParseRounds(ms: seq<ChatMessage>, calls: seq<TurnToolCall>): (r: (seq<TurnToolCall>, seq<ChatMessage>))
    ensures |r.1| <= |ms|
    decreases |ms|
  {
    if ms == [] || !DeclaresCalls(ms[0]) then (calls, ms)
    else
      var n := 1 + ToolRun(ms[1..]);
      ParseRounds(ms[n..], Fill(calls + FreshCalls(ms[0].toolCalls.value), |calls|, ms[1..n]))
  }

  function ParseTurn(ms: seq<ChatMessage>, number: nat): (r: (Turn, seq<ChatMessage>))
    requires ms != []
    ensures |r.1| < |ms|
  {
    var (calls, rest) := ParseRounds(ms[1..], []);
    var turn := NewTurn(number, ms[0].content).(toolCalls := calls);
    if rest != [] && IsResponse(rest[0]) then (CompletedTurn(turn, rest[0].content), rest[1..]) else (turn, rest)
  }

  /** Messages before the first user message, and any that no turn consumes, are skipped. */
  function Parse(ms: seq<ChatMessage>, number: nat): seq<Turn>
    decreases |ms|
  {
    if ms == [] then []
    else if ms[0].role == User then
      var (turn, rest) := ParseTurn(ms, number);
      [turn] + Parse(rest, number + 1)
    else Parse(ms[1..], number)
  }

  // ---- mutation ----

  function Renumber(turns: seq<Turn>): seq<Turn> {
    seq(|turns|, i requires 0 <= i < |turns| => turns[i].(turnNumber := i))
  }

  function Truncated(turns: seq<Turn>, keep: nat): seq<Turn> {
    if |turns| > keep then Renumber(turns[|turns| - keep..]) else turns
  }

  function OnLast(turns: seq<Turn>, f: Turn -> Turn): seq<Turn> {
    if turns == [] then [] else turns[|turns| - 1 := f(turns[|turns| - 1])]
  }

  predicate Numbered(turns: seq<Turn>) {
    forall i :: 0 <= i < |turns| ==> turns[i].turnNumber == i
  }

  class Thread {
    var state: ThreadState
    var turns: seq<Turn>

    constructor ()
      ensures state == Idle && turns == []
    {
      state := Idle;
      turns := [];
    }

    method StartTurn(userInput: string)
      modifies this
      ensures state == Processing && turns == Apply(old(turns), Start(userInput))
    {
      turns := turns + [NewTurn(|turns|, userInput)];
      state := Processing;
    }

    method CompleteTurn(response: string)
      modifies this
      ensures state == Idle && turns == Apply(old(turns), Complete(response))
    {
      if turns != [] {
        var last := turns[|turns| - 1];
        turns := turns[|turns| - 1 := last.(response := Some(response), state := Completed)];
      }
      state := Idle;
    }

    method FailTurn(error: string)
      modifies this
      ensures state == Idle && turns == Apply(old(turns), Fail(error))
    {
      if turns != [] {
        var last := turns[|turns| - 1];
        turns := turns[|turns| - 1 := last.(error := Some(error), state := Failed)];
      }
      state := Idle;
    }

    method Interrupt()
      modifies this
      ensures state == Stopped && turns == Apply(old(turns), Stop)
    {
      if turns != [] {
        turns := turns[|turns| - 1 := turns[|turns| - 1].(state := Interrupted)];
      }
      state := Stopped;
    }

    method RecordToolCall(name: string, parameters: Json)
      modifies this`turns
      ensures turns == Apply(old(turns), Call(name, parameters))
    {
      if turns != [] {
        var last := turns[|turns| - 1];
        turns := turns[|turns| - 1 := last.(toolCalls := last.toolCalls + [NewCall(name, parameters)])];
      }
    }

    method RecordToolResult(result: ToolOutput)
      modifies this`turns
      ensures turns == Apply(old(turns), Succeed(result))
    {
      if turns != [] && turns[|turns| - 1].toolCalls != [] {
        var last := turns[|turns| - 1];
        var n := |last.toolCalls| - 1;
        var calls := last.toolCalls[n := last.toolCalls[n].(result := Some(result))];
        turns := turns[|turns| - 1 := last.(toolCalls := calls)];
      }
    }

    method RecordToolError(error: string)
      modifies this`turns
      ensures turns == Apply(old(turns), Break(error))
    {
      if turns != [] && turns[|turns| - 1].toolCalls != [] {
        var last := turns[|turns| - 1];
        var n := |last.toolCalls| - 1;
        var calls := last.toolCalls[n := last.toolCalls[n].(error := Some(error))];
        turns := turns[|turns| - 1 := last.(toolCalls := calls)];
      }
    }

    method TruncateTurns(keep: nat)
      modifies this`turns
      ensures turns == Apply(old(turns), Truncate(keep))
    {
      if |turns| > keep {
        turns := turns[|turns| - keep..];
        ghost var kept := turns;
        var i := 0;
        while i < |turns|
          invariant 0 <= i <= |turns| == |kept|
          invariant forall j :: 0 <= j < i ==> turns[j] == kept[j].(turnNumber := j)
          invariant forall j :: i <= j < |kept| ==> turns[j] == kept[j]
        {
          turns := turns[i := turns[i].(turnNumber := i)];
          i := i + 1;
        }
        assert turns == Renumber(kept);
      }
    }

    /** `messages`: prints the thread. */
    method Messages() returns (ms: seq<ChatMessage>)
      ensures ms == Print(turns)
    {
      ms := [];
      var n := 0;
      while n < |turns|
        invariant 0 <= n <= |turns|
        invariant ms + Print(turns[n..]) == Print(turns)
      {
        var printed := TurnMessages(turns[n]);
        assert turns[n..][1..] == turns[n + 1..];
        ms := ms + printed;
        n := n + 1;
      }
    }

    method TurnMessages(turn: Turn) returns (ms: seq<ChatMessage>)
      ensures ms == PrintTurn(turn)
    {
      ms := [UserMessage(turn.userInput)];
      if turn.toolCalls != [] {
        var calls := CallMessages(turn);
        ms := ms + calls;
      }
      if turn.response.Some? {
        ms := ms + [AssistantMessage(turn.response.value)];
      }
    }

    method CallMessages(turn: Turn) returns (ms: seq<ChatMessage>)
      requires turn.toolCalls != []
      ensures ms == PrintCalls(turn)
    {
      var declared: seq<ToolCall> := [];
      var i := 0;
      while i < |turn.toolCalls|
        invariant 0 <= i <= |turn.toolCalls|
        invariant declared == Declared(turn.turnNumber, turn.toolCalls)[..i]
      {
        var c := turn.toolCalls[i];
        declared := declared + [ToolCall(CallId(turn.turnNumber, i), c.name, c.parameters)];
        i := i + 1;
      }
      var results: seq<ChatMessage> := [];
      i := 0;
      while i < |turn.toolCalls|
        invariant 0 <= i <= |turn.toolCalls|
        invariant results == Results(turn.turnNumber, turn.toolCalls)[..i]
      {
        var c := turn.toolCalls[i];
        var content := "OK";
        if c.error.Some? {
          content := TruncatePreview(c.error.value, PREVIEW_BYTES);
        } else if c.result.Some? {
          var raw := match c.result.value case Text(s) => s case Structured(r) => r;
          content := TruncatePreview(raw, PREVIEW_BYTES);
        }
        results := results + [ToolResult(CallId(turn.turnNumber, i), c.name, content)];
        i := i + 1;
      }
      assert declared == Declared(turn.turnNumber, turn.toolCalls);
      assert results == Results(turn.turnNumber, turn.toolCalls);
      ms := [AssistantWithToolCalls(None, declared)] + results;
    }

    /** `restore_from_messages`: parses any message list. */
    method RestoreFromMessages(messages: seq<ChatMessage>)
      modifies this
      ensures state == Idle && turns == Parse(messages, 0)
      ensures turns == Apply(old(turns), Restore(messages))
    {
      turns := [];
      state := Idle;
      var at := 0;
      while at < |messages|
        invariant 0 <= at <= |messages| && state == Idle
        invariant turns + Parse(messages[at..], |turns|) == Parse(messages, 0)
        decreases |messages| - at
      {
        if messages[at].role == User {
          var turn;
          turn, at := ConsumeTurn(messages, at, |turns|);
          turns := turns + [turn];
        } else {
          assert messages[at..][1..] == messages[at + 1..];
          at := at + 1;
        }
      }
    }

    /** One turn of `restore_from_messages`, from its user message on. */
    method ConsumeTurn(messages: seq<ChatMessage>, from: nat, number: nat) returns (turn: Turn, at: nat)
      requires from < |messages|
      ensures from < at <= |messages|
      ensures (turn, messages[at..]) == ParseTurn(messages[from..], number)
    {
      assert messages[from..][1..] == messages[from + 1..];
      turn := NewTurn(number, messages[from].content);
      var calls;
      calls, at := ConsumeRounds(messages, from + 1);
      turn := turn.(toolCalls := calls);
      if at < |messages| && IsResponse(messages[at]) {
        turn := turn.(response := Some(messages[at].content), state := Completed);
        at := at + 1;
      }
    }

    /** All rounds of tool calls and results of a turn. */
    method ConsumeRounds(messages: seq<ChatMessage>, from: nat) returns (calls: seq<TurnToolCall>, at: nat)
      requires from <= |messages|
      ensures from <= at <= |messages|
      ensures (calls, messages[at..]) == ParseRounds(messages[from..], [])
    {
      calls, at := [], from;
      while at < |messages| && DeclaresCalls(messages[at])
        invariant from <= at <= |messages|
        invariant ParseRounds(messages[at..], calls) == ParseRounds(messages[from..], [])
        decreases |messages| - at
      {
        ghost var round, before := at, calls;
        var base := |calls|;
        calls := RecordDeclared(calls, messages[at].toolCalls.value);
        calls, at := ConsumeResults(messages, at + 1, calls, base);
        RoundStep(messages, round, at, before, calls);
      }
    }

    method RecordDeclared(before: seq<TurnToolCall>, declared: seq<ToolCall>) returns (calls: seq<TurnToolCall>)
      ensures calls == before + FreshCalls(declared)
    {
      calls := before;
      var i := 0;
      while i < |declared|
        invariant 0 <= i <= |declared|
        invariant calls == before + FreshCalls(declared)[..i]
      {
        calls := calls + [NewCall(declared[i].name, declared[i].arguments)];
        i := i + 1;
      }
      assert FreshCalls(declared)[..i] == FreshCalls(declared);
    }

    method ConsumeResults(messages: seq<ChatMessage>, from: nat, declared: seq<TurnToolCall>, base: nat)
      returns (calls: seq<TurnToolCall>, at: nat)
      requires from <= |messages|
      ensures at == from + ToolRun(messages[from..]) && at <= |messages|
      ensures calls == Fill(declared, base, messages[from..at])
    {
      calls, at := declared, from;
      var pos := 0;
      ghost var end := from + ToolRun(messages[from..]);
      while at < |messages| && messages[at].role == Tool
        invariant at == from + pos && at <= end <= |messages|
        invariant ToolRun(messages[at..]) == end - at
        invariant Fill(calls, base + pos, messages[at..end]) == Fill(declared, base, messages[from..end])
        decreases end - at
      {
        var idx := base + pos;
        assert messages[at..][1..] == messages[at + 1..];
        assert messages[at..end][1..] == messages[at + 1..end];
        if idx < |calls| {
          calls := calls[idx := calls[idx].(result := Some(Text(messages[at].content)))];
        }
        at := at + 1;
        pos := pos + 1;
      }
    }
  }

  lemma {:induction false} RoundStep(
    ms: seq<ChatMessage>, round: nat, at: nat, before: seq<TurnToolCall>, after: seq<TurnToolCall>)
    requires round < |ms| && DeclaresCalls(ms[round])
    requires at == round + 1 + ToolRun(ms[round + 1..])
    requires after == Fill(before + FreshCalls(ms[round].toolCalls.value), |before|, ms[round + 1..at])
    ensures ParseRounds(ms[round..], before) == ParseRounds(ms[at..], after)
  {
    assert ms[round..][1..] == ms[round + 1..];
    assert ms[round..][1..at - round] == ms[round + 1..at];
    assert ms[round..][at - round..] == ms[at..];
  }

  // ---- runs of mutations ----

  datatype Op =
    | Start(userInput: string)
    | Complete(response: string)
    | Fail(error: string)
    | Stop
    | Call(name: string, parameters: Json)
    | Succeed(result: ToolOutput)
    | Break(error: string)
    | Truncate(keep: nat)
    | Restore(messages: seq<ChatMessage>)

  function Apply(turns: seq<Turn>, op: Op): seq<Turn> {
    match op
    case Start(input) => turns + [NewTurn(|turns|, input)]
    case Complete(response) => OnLast(turns, (t: Turn) => CompletedTurn(t, response))
    case Fail(error) => OnLast(turns, (t: Turn) => t.(error := Some(error), state := Failed))
    case Stop => OnLast(turns, (t: Turn) => t.(state := Interrupted))
    case Call(name, ps) => OnLast(turns, (t: Turn) => t.(toolCalls := t.toolCalls + [NewCall(name, ps)]))
    case Succeed(result) => OnLast(turns, (t: Turn) => WithResult(t, result))
    case Break(error) => OnLast(turns, (t: Turn) => WithError(t, error))
    case Truncate(keep) => Truncated(turns, keep)
    case Restore(messages) => Parse(messages, 0)
  }

  function ApplyAll(turns: seq<Turn>, ops: seq<Op>): seq<Turn>
    decreases ops
  {
    if ops == [] then turns else ApplyAll(Apply(turns, ops[0]), ops[1..])
  }
}
