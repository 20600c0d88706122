/** One batch of tool calls in the chat loop (src/agent/dispatcher.rs): sequential
    preflight, parallel execution, ordered post-flight, and suspension for approval. */
module ToolExecution {
  import opened Wrappers
  import opened Chat
  import opened Threads

  /** What the BeforeToolCall hook decides: a refusal with its full message, or the
      arguments to go on with. */
  datatype Hook = Rejected(message: string) | Passed(arguments: Json)

  /** How a spawned tool task ends; a cancelled task counts as panicked. */
  datatype Task = Finished(result: Result<string, string>) | Panicked

  /** Everything the environment contributes to one call: redacted arguments for the
      record, the hook, whether the tool asks for approval, and how its task ends. */
  datatype CallEnv = CallEnv(redacted: Json, hook: Hook, needsApproval: bool, task: Task)

  /** Sanitizing and wrapping a tool's output, and recognizing an auth prompt in it. */
  datatype Services = Services(
    wrap: (string, string) -> string,
    authPrompt: (string, Result<string, string>) -> Option<string>)

  datatype PendingApproval = PendingApproval(
    toolName: string,
    parameters: Json,
    toolCallId: string,
    contextMessages: seq<ChatMessage>,
    deferredToolCalls: seq<ToolCall>)

  datatype Outcome =
    | Continue
    | AuthPrompt(instructions: string)
    | NeedApproval(pending: PendingApproval)
    | Unwound  // a lone call is run inline, so its panic is not caught

  // ---- the reference: one call at a time, in order ----

  function FillIn(name: string): string {
    "Tool error: Tool " + name + " execution failed: Task failed during execution"
  }

  function TaskResult(name: string, task: Task): Result<string, string> {
    match task
    case Finished(result) => result
    case Panicked => Err(FillIn(name))
  }

  function ResultContent(sv: Services, name: string, result: Result<string, string>): string {
    match result
    case Ok(output) => sv.wrap(name, output)
    case Err(error) => "Tool '" + name + "' failed: " + error
  }

  function Content(sv: Services, call: ToolCall, env: CallEnv): string {
    match env.hook
    case Rejected(message) => message
    case Passed(_) => ResultContent(sv, call.name, TaskResult(call.name, env.task))
  }

  function Answer(sv: Services, call: ToolCall, env: CallEnv): ChatMessage {
    ToolResult(call.id, call.name, Content(sv, call, env))
  }

  /** The tool messages of a run that takes the calls one at a time. */
  function AnswersInOrder(sv: Services, calls: seq<ToolCall>, env: seq<CallEnv>): (r: seq<ChatMessage>)
    requires |calls| == |env|
    ensures Answers(calls, r)
  {
    seq(|calls|, i requires 0 <= i < |calls| => Answer(sv, calls[i], env[i]))
  }

  /** The position of the first call that has to wait for approval, or the batch length. */
  function ApprovalAt(env: seq<CallEnv>): (a: nat)
    ensures a <= |env|
    ensures a < |env| ==> env[a].hook.Passed? && env[a].needsApproval
    ensures forall i :: 0 <= i < a ==> env[i].hook.Rejected? || !env[i].needsApproval
  {
    if env == [] || (env[0].hook.Passed? && env[0].needsApproval) then 0 else 1 + ApprovalAt(env[1..])
  }

  /** The first auth prompt among executed calls. */
  function FirstPrompt(sv: Services, calls: seq<ToolCall>, env: seq<CallEnv>): Option<string>
    requires |calls| == |env|
  {
    if calls == [] then None
    else
      var prompt := PromptOf(sv, calls[0], env[0]);
      if prompt.Some? then prompt else FirstPrompt(sv, calls[1..], env[1..])
  }

  /** The calls before position a that pass their hook. */
  function Runnable(env: seq<CallEnv>, a: nat): seq<nat>
    requires a <= |env|
  {
    if a == 0 then [] else Runnable(env, a - 1) + if env[a - 1].hook.Passed? then [a - 1] else []
  }

  predicate Unwinds(env: seq<CallEnv>) {
    var r := Runnable(env, ApprovalAt(env));
    |r| == 1 && IsPanicked(env, r[0])
  }

  /** The batch stops to ask for approval. */
  predicate Suspends(sv: Services, calls: seq<ToolCall>, env: seq<CallEnv>)
    requires |env| == |calls|
  {
    var a := ApprovalAt(env);
    a < |calls| && !Unwinds(env) && FirstPrompt(sv, calls[..a], env[..a]).None?
  }

  predicate IsPanicked(env: seq<CallEnv>, i: nat) { i < |env| && env[i].task.Panicked? }

  /** The record operations on the thread: the whole batch first, then one per answer. */
  function RecordCalls(calls: seq<ToolCall>, env: seq<CallEnv>): seq<Op>
    requires |calls| == |env|
  {
    seq(|calls|, i requires 0 <= i < |calls| => Call(calls[i].name, env[i].redacted))
  }

  function RecordAnswer(sv: Services, call: ToolCall, env: CallEnv): Op {
    if env.hook.Rejected? || TaskResult(call.name, env.task).Err? then Break(Content(sv, call, env))
    else Succeed(Text(Content(sv, call, env)))
  }

  function RecordAnswers(sv: Services, calls: seq<ToolCall>, env: seq<CallEnv>): seq<Op>
    requires |calls| == |env|
  {
    seq(|calls|, i requires 0 <= i < |calls| => RecordAnswer(sv, calls[i], env[i]))
  }

  lemma {:induction false} ApplyAppend(turns: seq<Turn>, ops: seq<Op>, op: Op)
    ensures ApplyAll(turns, ops + [op]) == Apply(ApplyAll(turns, ops), op)
    decreases ops
  {
    if ops == [] {
      assert ops + [op] == [op];
      assert [op][1..] == [];
    } else {
      ApplyAppend(Apply(turns, ops[0]), ops[1..], op);
      assert (ops + [op])[1..] == ops[1..] + [op];
    }
  }

  lemma {:induction false} ApplyPrefix(turns: seq<Turn>, ops: seq<Op>, i: nat)
    requires i < |ops|
    ensures ApplyAll(turns, ops[..i + 1]) == Apply(ApplyAll(turns, ops[..i]), ops[i])
  {
    assert ops[..i + 1] == ops[..i] + [ops[i]];
    ApplyAppend(turns, ops[..i], ops[i]);
  }

  lemma {:induction false} AppendNext<T>(before: seq<T>, xs: seq<T>, i: nat)
    requires i < |xs|
    ensures before + xs[..i] + [xs[i]] == before + xs[..i + 1]
  {
  }

  /** The auth prompt of one executed call. */
  function PromptOf(sv: Services, call: ToolCall, env: CallEnv): Option<string> {
    if env.hook.Passed? then sv.authPrompt(call.name, TaskResult(call.name, env.task)) else None
  }

  lemma {:induction false} FirstPromptStep(sv: Services, calls: seq<ToolCall>, env: seq<CallEnv>, i: nat)
    requires |calls| == |env| && i < |calls|
    ensures var prompt := PromptOf(sv, calls[i], env[i]);
            FirstPrompt(sv, calls[i..], env[i..])
            == if prompt.Some? then prompt else FirstPrompt(sv, calls[i + 1..], env[i + 1..])
  {
    assert calls[i..][1..] == calls[i + 1..] && env[i..][1..] == env[i + 1..];
  }

  // ---- the dispatcher ----

  class ChatDelegate {
    const services: Services
    const thread: Thread
    var messages: seq<ChatMessage>

    constructor (services: Services, thread: Thread, messages: seq<ChatMessage>)
      ensures this.services == services && this.thread == thread && this.messages == messages
    {
      this.services := services;
      this.thread := thread;
      this.messages := messages;
    }

    /** `execute_tool_calls`, for any order in which the tasks finish. The appended tool
        messages are those of the run that takes the calls one at a time; the batch splits
        exactly into answered calls, the one pending call and the deferred calls. */
    method ExecuteToolCalls(calls: seq<ToolCall>, content: Option<string>, env: seq<CallEnv>)
      returns (r: Outcome)
      requires |env| == |calls|
      modifies this, thread
      ensures r.Unwound? <==> Unwinds(env)
      ensures r.NeedApproval? <==> Suspends(services, calls, env)
      ensures var a, head := ApprovalAt(env), old(messages) + [AssistantWithToolCalls(content, calls)];
              if r.Unwound? then
                && messages == head
                && thread.turns == ApplyAll(old(thread.turns), RecordCalls(calls, env))
              else
                && messages == head + AnswersInOrder(services, calls[..a], env[..a])
                && thread.turns == ApplyAll(ApplyAll(old(thread.turns), RecordCalls(calls, env)),
                                            RecordAnswers(services, calls[..a], env[..a]))
      ensures var a := ApprovalAt(env);
              !r.Unwound? ==>
                var prompt := FirstPrompt(services, calls[..a], env[..a]);
                if prompt.Some? then r == AuthPrompt(prompt.value)
                else if a == |calls| then r == Continue
                else
                  && r.NeedApproval?
                  && r.pending.toolCallId == calls[a].id && r.pending.toolName == calls[a].name
                  && r.pending.parameters == env[a].hook.arguments
                  && r.pending.deferredToolCalls == calls[a + 1..]
                  && r.pending.contextMessages == messages
    {
      messages := messages + [AssistantWithToolCalls(content, calls)];
      RecordBatch(calls, env);

      // Phase 1: preflight, up to the first call that needs approval.
      var approval, runnable := Preflight(env);

      // Phase 2: execution.
      var unwound, results := Execute(calls, env, approval, runnable);
      if unwound {
        return Unwound;
      }

      // Phase 3: post-flight, in the original order.
      var prompt := PostFlight(calls[..approval], env[..approval], results);
      if prompt.Some? {
        return AuthPrompt(prompt.value);
      }
      if approval < |calls| {
        var call := calls[approval].(arguments := env[approval].hook.arguments);
        return NeedApproval(PendingApproval(
          call.name, call.arguments, call.id, messages, calls[approval + 1..]));
      }
      return Continue;
    }

    method RecordBatch(calls: seq<ToolCall>, env: seq<CallEnv>)
      requires |env| == |calls|
      modifies thread
      ensures thread.turns == ApplyAll(old(thread.turns), RecordCalls(calls, env))
    {
      var i := 0;
      while i < |calls|
        invariant 0 <= i <= |calls|
        invariant thread.turns == ApplyAll(old(thread.turns), RecordCalls(calls, env)[..i])
      {
        ApplyPrefix(old(thread.turns), RecordCalls(calls, env), i);
        thread.RecordToolCall(calls[i].name, env[i].redacted);
        i := i + 1;
      }
      assert RecordCalls(calls, env)[..i] == RecordCalls(calls, env);
    }

    method Preflight(env: seq<CallEnv>) returns (approval: nat, runnable: seq<nat>)
      ensures approval == ApprovalAt(env) && runnable == Runnable(env, approval)
    {
      approval, runnable := 0, [];
      while approval < |env|
        invariant 0 <= approval <= |env|
        invariant ApprovalAt(env) == approval + ApprovalAt(env[approval..])
        invariant runnable == Runnable(env, approval)
      {
        assert env[approval..][1..] == env[approval + 1..];
        if env[approval].hook.Passed? {
          if env[approval].needsApproval {
            return;
          }
          runnable := runnable + [approval];
        }
        approval := approval + 1;
      }
    }

    method Execute(calls: seq<ToolCall>, env: seq<CallEnv>, a: nat, runnable: seq<nat>)
      returns (unwound: bool, results: seq<Option<Result<string, string>>>)
      requires |env| == |calls| && a == ApprovalAt(env) && runnable == Runnable(env, a)
      ensures unwound <==> Unwinds(env)
      ensures !unwound ==> Executed(calls[..a], env[..a], results)
    {
      RunnableIndices(env, a);
      if |runnable| <= 1 {
        unwound, results := RunInline(env, a, runnable);
      } else {
        unwound := false;
        results := RunParallel(env, a, runnable);
        results := FillFailed(calls, env, runnable, results);
      }
    }

    /** At most one call: run in place, where a panic is not caught. */
    method RunInline(env: seq<CallEnv>, a: nat, runnable: seq<nat>)
      returns (unwound: bool, results: seq<Option<Result<string, string>>>)
      requires |runnable| <= 1 && a <= |env| && forall i :: 0 <= i < |runnable| ==> runnable[i] < a
      ensures unwound <==> |runnable| == 1 && env[runnable[0]].task.Panicked?
      ensures !unwound ==> |results| == a && forall j :: 0 <= j < a ==>
                results[j] == if j in runnable && env[j].task.Finished? then Some(env[j].task.result) else None
    {
      unwound, results := false, seq(a, _ => None);
      if |runnable| == 1 {
        var idx := runnable[0];
        if env[idx].task.Panicked? {
          return true, results;
        }
        results := results[idx := Some(env[idx].task.result)];
      }
    }

    /** Tasks finish in any order; a panicked task leaves its slot empty. */
    method RunParallel(env: seq<CallEnv>, a: nat, runnable: seq<nat>)
      returns (results: seq<Option<Result<string, string>>>)
      requires a <= |env| && forall i :: 0 <= i < |runnable| ==> runnable[i] < a
      ensures |results| == a && forall j :: 0 <= j < a ==>
                results[j] == if j in runnable && env[j].task.Finished? then Some(env[j].task.result) else None
    {
      results := seq(a, _ => None);
      var running := set i | i in runnable;
      while running != {}
        invariant |results| == a
        invariant forall j :: j in running ==> j in runnable && j < a
        invariant forall j :: 0 <= j < a ==>
                    results[j] == if j in runnable && j !in running && env[j].task.Finished?
                                  then Some(env[j].task.result) else None
        decreases running
      {
        var idx :| idx in running;
        running := running - {idx};
        if env[idx].task.Finished? {
          results := results[idx := Some(env[idx].task.result)];
        }
      }
    }

    method FillFailed(calls: seq<ToolCall>, env: seq<CallEnv>, runnable: seq<nat>,
                      found: seq<Option<Result<string, string>>>)
      returns (results: seq<Option<Result<string, string>>>)
      requires |found| <= |calls| == |env| && forall i :: 0 <= i < |runnable| ==> runnable[i] < |found|
      requires forall j :: 0 <= j < |found| ==>
                 found[j] == if j in runnable && env[j].task.Finished? then Some(env[j].task.result) else None
      ensures |results| == |found| && forall j :: 0 <= j < |found| ==>
                results[j] == if j in runnable then Some(TaskResult(calls[j].name, env[j].task)) else None
    {
      results := found;
      var i := 0;
      while i < |runnable|
        invariant 0 <= i <= |runnable| && |results| == |found|
        invariant forall j :: 0 <= j < |found| ==>
                    results[j] == if j in runnable && (env[j].task.Finished? || j in runnable[..i])
                                  then Some(TaskResult(calls[j].name, env[j].task)) else None
      {
        var idx := runnable[i];
        if results[idx].None? {
          results := results[idx := Some(Err(FillIn(calls[idx].name)))];
        }
        i := i + 1;
      }
      assert runnable[..i] == runnable;
    }

    method PostFlight(calls: seq<ToolCall>, env: seq<CallEnv>, results: seq<Option<Result<string, string>>>)
      returns (prompt: Option<string>)
      requires |env| == |calls| && Executed(calls, env, results)
      modifies this, thread
      ensures messages == old(messages) + AnswersInOrder(services, calls, env)
      ensures thread.turns == ApplyAll(old(thread.turns), RecordAnswers(services, calls, env))
      ensures prompt == FirstPrompt(services, calls, env)
    {
      prompt := None;
      ghost var answers, ops := AnswersInOrder(services, calls, env), RecordAnswers(services, calls, env);
      ghost var before, turns := messages, thread.turns;
      var i := 0;
      while i < |calls|
        invariant 0 <= i <= |calls|
        invariant messages == before + answers[..i]
        invariant thread.turns == ApplyAll(turns, ops[..i])
        invariant FirstPrompt(services, calls, env)
               == if prompt.Some? then prompt else FirstPrompt(services, calls[i..], env[i..])
      {
        ApplyPrefix(turns, ops, i);
        FirstPromptStep(services, calls, env, i);
        AppendNext(before, answers, i);
        assert results[i] == if env[i].hook.Passed? then Some(TaskResult(calls[i].name, env[i].task)) else None;
        prompt := PostFlightOne(calls[i], env[i], results[i], prompt);
        i := i + 1;
      }
      assert answers[..i] == answers && ops[..i] == ops;
    }

    method PostFlightOne(call: ToolCall, env: CallEnv, slot: Option<Result<string, string>>, found: Option<string>)
      returns (prompt: Option<string>)
      requires slot == if env.hook.Passed? then Some(TaskResult(call.name, env.task)) else None
      modifies this, thread
      ensures messages == old(messages) + [Answer(services, call, env)]
      ensures thread.turns == Apply(old(thread.turns), RecordAnswer(services, call, env))
      ensures prompt == if found.None? then PromptOf(services, call, env) else found
    {
      prompt := found;
      var content;
      match env.hook {
        case Rejected(message) =>
          content := message;
          thread.RecordToolError(message);
        case Passed(_) =>
          var result := slot.value;
          if prompt.None? {
            prompt := services.authPrompt(call.name, result);
          }
          content := ResultContent(services, call.name, result);
          if result.Err? {
            thread.RecordToolError(content);
          } else {
            thread.RecordToolResult(Text(content));
          }
      }
      messages := messages + [ToolResult(call.id, call.name, content)];
    }
  }

  /** Every executed slot holds its task's result, fill-in error included. */
  predicate Executed(calls: seq<ToolCall>, env: seq<CallEnv>, results: seq<Option<Result<string, string>>>)
    requires |calls| == |env|
  {
    && |results| == |calls|
    && forall i :: 0 <= i < |calls| ==>
         results[i] == if env[i].hook.Passed? then Some(TaskResult(calls[i].name, env[i].task)) else None
  }

  lemma {:induction false} RunnableIndices(env: seq<CallEnv>, a: nat)
    requires a <= |env|
    ensures forall i :: i in Runnable(env, a) <==> 0 <= i < a && env[i].hook.Passed?
    ensures forall i :: 0 <= i < |Runnable(env, a)| ==> Runnable(env, a)[i] < a
  {
    if a > 0 { RunnableIndices(env, a - 1); }
  }
}
