/** What the LLM and the thread are told about each tool call (src/agent/dispatcher.rs post-flight,
    src/agent/thread_ops.rs and src/tools/execute.rs), call by call. */
module ToolAnswers {
  import opened Wrappers
  import opened Chat
  import opened Threads
  import opened ToolExecution
  import opened ToolBatches

  // ---- one batch ----

  /** The text of one answered call. A rejected call carries the hook's message; a tool that ended
      well its output, sanitized and wrapped; one that failed a text that names tool and error; one
      whose task broke the text for the error that is filled in. */
  predicate Tells(sv: Services, call: ToolCall, env: CallEnv, content: string) {
    match (env.hook, env.task)
    case (Rejected(message), _) => content == message
    case (Passed(_), Finished(Ok(output))) => content == sv.wrap(call.name, output)
    case (Passed(_), Finished(Err(error))) => content == "Tool '" + call.name + "' failed: " + error
    case (Passed(_), Panicked) =>
      content == "Tool '" + call.name + "' failed: Tool error: Tool " + call.name
                 + " execution failed: Task failed during execution"
  }

  /** What the thread records of it: the same text, as a result exactly when the tool ended well. */
  predicate Records(sv: Services, call: ToolCall, env: CallEnv, op: Op) {
    if env.hook.Passed? && env.task.Finished? && env.task.result.Ok?
    then op.Succeed? && op.result.Text? && Tells(sv, call, env, op.result.s)
    else op.Break? && Tells(sv, call, env, op.error)
  }

  lemma {:induction false} FillInReads(name: string)
    ensures "Tool '" + name + "' failed: " + FillIn(name)
         == "Tool '" + name + "' failed: Tool error: Tool " + name + " execution failed: Task failed during execution"
  {
  }

  lemma {:induction false} ContentTells(sv: Services, call: ToolCall, env: CallEnv)
    ensures Tells(sv, call, env, Content(sv, call, env))
  {
    FillInReads(call.name);
  }

  /** A tool message with this call's id and name. */
  predicate IsAnswer(m: ChatMessage, call: ToolCall) {
    m == ChatMessage(Tool, m.content, Some(call.id), Some(call.name), None)
  }

  lemma {:induction false} AnswerTells(sv: Services, calls: seq<ToolCall>, env: seq<CallEnv>, a: nat, i: nat)
    requires |calls| == |env| && i < a <= |calls|
    ensures var m := AnswersInOrder(sv, calls[..a], env[..a])[i];
            IsAnswer(m, calls[i]) && Tells(sv, calls[i], env[i], m.content)
  {
    ContentTells(sv, calls[i], env[i]);
  }

  lemma {:induction false} ListAt(before: seq<ChatMessage>, head: ChatMessage, more: seq<ChatMessage>, i: nat)
    requires i < |more|
    ensures var ms := before + [head] + more;
            before <= ms && |ms| == |before| + 1 + |more| && ms[|before|] == head && ms[|before| + 1 + i] == more[i]
  {
  }

  /** The messages a batch leaves when it does not unwind: after those before it one declaration of
      all its calls, then an answer for each call before the one that waits, in order, with the
      text that tells its outcome; and nothing else. */
  lemma {:induction false} BatchTells(
    before: seq<ChatMessage>, calls: seq<ToolCall>, content: Option<string>, sv: Services, env: seq<CallEnv>, i: nat)
    requires |calls| == |env| && !Unwinds(env) && i < ApprovalAt(env)
    ensures var ms := BatchMessages(before, calls, content, sv, env);
            && before <= ms && |ms| == |before| + 1 + ApprovalAt(env)
            && ms[|before|] == ChatMessage(
                 Assistant, if content.Some? then content.value else "", None, None, Some(calls))
            && IsAnswer(ms[|before| + 1 + i], calls[i])
            && Tells(sv, calls[i], env[i], ms[|before| + 1 + i].content)
  {
    var a, head := ApprovalAt(env), AssistantWithToolCalls(content, calls);
    AnswerTells(sv, calls, env, a, i);
    ListAt(before, head, AnswersInOrder(sv, calls[..a], env[..a]), i);
  }

  /** What the thread is given to record: every call of the batch with its redacted arguments, and
      the outcome of each answered one. */
  lemma {:induction false} RecordTells(sv: Services, calls: seq<ToolCall>, env: seq<CallEnv>, i: nat)
    requires |calls| == |env| && i < |calls|
    ensures |RecordCalls(calls, env)| == |calls| && RecordCalls(calls, env)[i] == Call(calls[i].name, env[i].redacted)
    ensures |RecordAnswers(sv, calls, env)| == |calls|
    ensures Records(sv, calls[i], env[i], RecordAnswers(sv, calls, env)[i])
  {
    ContentTells(sv, calls[i], env[i]);
  }

  // ---- panics and prompts ----

  /** Call i is the only one before call a that passes its hook. */
  predicate OnlyRunnable(env: seq<CallEnv>, a: nat, i: nat) {
    i < a <= |env| && forall j :: 0 <= j < a ==> (env[j].hook.Passed? <==> j == i)
  }

  lemma {:induction false} NoneRunnable(env: seq<CallEnv>, a: nat)
    requires a <= |env| && forall j :: 0 <= j < a ==> env[j].hook.Rejected?
    ensures Runnable(env, a) == []
  {
    if a > 0 { NoneRunnable(env, a - 1); }
  }

  lemma {:induction false} OnlyMeansSingle(env: seq<CallEnv>, a: nat, i: nat)
    requires OnlyRunnable(env, a, i)
    ensures Runnable(env, a) == [i]
  {
    if i == a - 1 { NoneRunnable(env, a - 1); }
    else { OnlyMeansSingle(env, a - 1, i); }
  }

  lemma {:induction false} SingleMeansOnly(env: seq<CallEnv>, a: nat)
    requires a <= |env| && |Runnable(env, a)| == 1
    ensures OnlyRunnable(env, a, Runnable(env, a)[0])
  {
    var r := Runnable(env, a);
    RunnableIndices(env, a);
    assert r == [r[0]];
    forall j | 0 <= j < a
      ensures env[j].hook.Passed? <==> j == r[0]
    {
      assert j in r <==> j == r[0];
    }
  }

  ghost predicate LoneTaskPanics(env: seq<CallEnv>, a: nat) {
    exists i: nat :: OnlyRunnable(env, a, i) && env[i].task.Panicked?
  }

  /** A batch unwinds exactly when one single call may run before the one that waits, and its task
      panics. */
  lemma {:induction false} UnwindsExactlyWhen(env: seq<CallEnv>)
    ensures Unwinds(env) <==> LoneTaskPanics(env, ApprovalAt(env))
  {
    var a := ApprovalAt(env);
    if Unwinds(env) { SingleMeansOnly(env, a); }
    if LoneTaskPanics(env, a) {
      var i: nat :| OnlyRunnable(env, a, i) && env[i].task.Panicked?;
      OnlyMeansSingle(env, a, i);
    }
  }

  /** The outcome the auth check is shown: the task's, or the error that is filled in. */
  function Outcome(name: string, task: Task): Result<string, string> {
    match task
    case Finished(result) => result
    case Panicked => Err("Tool error: Tool " + name + " execution failed: Task failed during execution")
  }

  lemma {:induction false} OutcomeIsResult(name: string, task: Task)
    ensures Outcome(name, task) == TaskResult(name, task)
  {
  }

  /** What an executed call asks for, if anything. */
  function AskedBy(sv: Services, call: ToolCall, env: CallEnv): Option<string> {
    if env.hook.Rejected? then None else sv.authPrompt(call.name, Outcome(call.name, env.task))
  }

  /** The first that asks. */
  function FirstOf(asks: seq<Option<string>>): Option<string> {
    if asks == [] then None else if asks[0].Some? then asks[0] else FirstOf(asks[1..])
  }

  lemma {:induction false} FirstOfIsFirst(asks: seq<Option<string>>)
    ensures FirstOf(asks).None? <==> forall i :: 0 <= i < |asks| ==> asks[i].None?
    ensures FirstOf(asks).Some? ==> exists i :: IsFirst(asks, i, FirstOf(asks))
  {
    if asks != [] {
      if asks[0].Some? {
        assert IsFirst(asks, 0, FirstOf(asks));
      } else {
        FirstOfIsFirst(asks[1..]);
        assert forall i :: 0 < i < |asks| ==> asks[i] == asks[1..][i - 1];
        if FirstOf(asks).Some? {
          var i :| IsFirst(asks[1..], i, FirstOf(asks));
          assert IsFirst(asks, i + 1, FirstOf(asks));
        }
      }
    }
  }

  /** The one at i asks for this, and none before it asks for anything. */
  predicate IsFirst(asks: seq<Option<string>>, i: int, ask: Option<string>) {
    0 <= i < |asks| && asks[i] == ask && forall j :: 0 <= j < i ==> asks[j].None?
  }

  function AllAsked(sv: Services, calls: seq<ToolCall>, env: seq<CallEnv>): (asks: seq<Option<string>>)
    requires |calls| == |env|
  {
    seq(|calls|, i requires 0 <= i < |calls| => AskedBy(sv, calls[i], env[i]))
  }

  /** The prompt of a batch is that of its first executed call that asks. */
  lemma {:induction false} FirstPromptWins(sv: Services, calls: seq<ToolCall>, env: seq<CallEnv>)
    requires |calls| == |env|
    ensures var asks, ask := AllAsked(sv, calls, env), FirstPrompt(sv, calls, env);
            && (ask.None? <==> forall i :: 0 <= i < |asks| ==> asks[i].None?)
            && (ask.Some? ==> exists i :: IsFirst(asks, i, ask))
  {
    PromptIsFirst(sv, calls, env);
    FirstOfIsFirst(AllAsked(sv, calls, env));
  }

  lemma {:induction false} PromptIsFirst(sv: Services, calls: seq<ToolCall>, env: seq<CallEnv>)
    requires |calls| == |env|
    ensures FirstPrompt(sv, calls, env) == FirstOf(AllAsked(sv, calls, env))
  {
    if calls != [] {
      OutcomeIsResult(calls[0].name, env[0].task);
      PromptIsFirst(sv, calls[1..], env[1..]);
      assert AllAsked(sv, calls, env)[1..] == AllAsked(sv, calls[1..], env[1..]);
    }
  }

  /** The call that waits keeps its id and name and goes on with the arguments its hook decided; all
      later ones are deferred as they are. */
  lemma {:induction false} SuspensionTells(
    before: seq<ChatMessage>, calls: seq<ToolCall>, content: Option<string>, sv: Services, env: seq<CallEnv>)
    requires |env| == |calls| && Suspends(sv, calls, env)
    ensures var a, p := ApprovalAt(env), Suspended(before, calls, content, sv, env);
            && p.Waiting? && env[a].hook.Passed? && env[a].needsApproval
            && p.pending == ToolCall(calls[a].id, calls[a].name, env[a].hook.arguments)
            && p.deferred == calls[a + 1..]
            && p.messages == BatchMessages(before, calls, content, sv, env)
  {
  }

  // ---- approval rounds ----

  /** The text on the approval path, where a failure is worded differently. */
  predicate Reports(sv: Services, name: string, task: Task, content: string) {
    match task
    case Finished(Ok(output)) => content == sv.wrap(name, output)
    case Finished(Err(error)) => content == "Error: " + error
    case Panicked => content == "Error: Tool error: Tool " + name + " execution failed: Task failed during execution"
  }

  lemma {:induction false} ReplayReports(sv: Services, call: ToolCall, r: Replay)
    ensures IsAnswer(ReplayAnswer(sv, call, r), call)
    ensures Reports(sv, call.name, r.task, ReplayAnswer(sv, call, r).content)
  {
    assert "Error: " + FillIn(call.name)
        == "Error: Tool error: Tool " + call.name + " execution failed: Task failed during execution";
  }

  /** The first deferred call that waits: none before it needs approval, and it does. */
  lemma {:induction false} WaitsAtTheFirst(replay: seq<Replay>)
    ensures forall i :: 0 <= i < WaitsAt(replay) ==> !replay[i].needsApproval
    ensures WaitsAt(replay) < |replay| ==> replay[WaitsAt(replay)].needsApproval
  {
    if replay != [] && !replay[0].needsApproval { WaitsAtTheFirst(replay[1..]); }
  }

  /** How many deferred calls are answered in the round. */
  function AnsweredDeferred(replay: seq<Replay>): nat {
    if WaitsAt(replay) == 1 && replay[0].task.Panicked? then 0 else WaitsAt(replay)
  }

  /** The message answers the call and reports how its task ended. */
  predicate IsReport(sv: Services, m: ChatMessage, call: ToolCall, task: Task) {
    IsAnswer(m, call) && Reports(sv, call.name, task, m.content)
  }

  /** What the round appends: one answer, then those of the deferred calls. */
  function DeferredAnswers(sv: Services, p: Progress, d: Decision): seq<ChatMessage>
    requires Fits(p, d) && Resumes(sv, p, d)
  {
    var q := WaitsAt(d.replay);
    if LonePanic(d.replay) then [] else Replayed(sv, p.deferred[..q], d.replay[..q])
  }

  function PendingAnswer(sv: Services, p: Progress, d: Decision): ChatMessage
    requires Fits(p, d) && Resumes(sv, p, d)
  {
    ToolResult(p.pending.id, p.pending.name, ProcessedContent(sv, p.pending.name, d.task.result))
  }

  lemma {:induction false} AppendedShape(sv: Services, p: Progress, d: Decision)
    requires Fits(p, d) && Resumes(sv, p, d)
    ensures Decide(sv, p, d).messages == p.messages + ([PendingAnswer(sv, p, d)] + DeferredAnswers(sv, p, d))
    ensures |DeferredAnswers(sv, p, d)| == AnsweredDeferred(d.replay)
  {
  }

  lemma {:induction false} PendingReports(sv: Services, p: Progress, d: Decision)
    requires Fits(p, d) && Resumes(sv, p, d)
    ensures IsReport(sv, PendingAnswer(sv, p, d), p.pending, d.task)
  {
  }

  lemma {:induction false} DeferredReports(sv: Services, p: Progress, d: Decision, i: nat)
    requires Fits(p, d) && Resumes(sv, p, d) && i < AnsweredDeferred(d.replay)
    ensures i < |DeferredAnswers(sv, p, d)| && i < |p.deferred|
    ensures IsReport(sv, DeferredAnswers(sv, p, d)[i], p.deferred[i], d.replay[i].task)
  {
    var q := WaitsAt(d.replay);
    assert p.deferred[..q][i] == p.deferred[i] && d.replay[..q][i] == d.replay[i];
    ReplayReports(sv, p.deferred[i], d.replay[i]);
  }

  lemma {:induction false} AddedAt<T>(before: seq<T>, first: T, rest: seq<T>, i: nat)
    ensures var all := before + ([first] + rest);
            && before <= all && |all| == |before| + 1 + |rest| && all[|before|] == first
            && (i < |rest| ==> all[|before| + 1 + i] == rest[i])
  {
  }

  /** What a replayed call asks for, if anything. */
  function AskedInReplay(sv: Services, call: ToolCall, r: Replay): Option<string> {
    sv.authPrompt(call.name, Outcome(call.name, r.task))
  }

  function AllAskedInReplay(sv: Services, deferred: seq<ToolCall>, replay: seq<Replay>): seq<Option<string>>
    requires |deferred| == |replay|
  {
    seq(|deferred|, i requires 0 <= i < |deferred| => AskedInReplay(sv, deferred[i], replay[i]))
  }

  /** The prompt of a replay is that of its first call that asks. */
  lemma {:induction false} ReplayPromptWins(sv: Services, deferred: seq<ToolCall>, replay: seq<Replay>)
    requires |deferred| == |replay|
    ensures var asks, ask := AllAskedInReplay(sv, deferred, replay), ReplayPrompt(sv, deferred, replay);
            && (ask.None? <==> forall i :: 0 <= i < |asks| ==> asks[i].None?)
            && (ask.Some? ==> exists i :: IsFirst(asks, i, ask))
  {
    ReplayPromptIsFirst(sv, deferred, replay);
    FirstOfIsFirst(AllAskedInReplay(sv, deferred, replay));
  }

  lemma {:induction false} ReplayPromptIsFirst(sv: Services, deferred: seq<ToolCall>, replay: seq<Replay>)
    requires |deferred| == |replay|
    ensures ReplayPrompt(sv, deferred, replay) == FirstOf(AllAskedInReplay(sv, deferred, replay))
  {
    if deferred != [] {
      OutcomeIsResult(deferred[0].name, replay[0].task);
      ReplayPromptIsFirst(sv, deferred[1..], replay[1..]);
      assert AllAskedInReplay(sv, deferred, replay)[1..] == AllAskedInReplay(sv, deferred[1..], replay[1..]);
    }
  }

  /** What a decision adds to the conversation when the approved tool ran and asked for nothing: its
      answer first, with the text that reports its outcome. */
  lemma {:induction false} DecisionReports(sv: Services, p: Progress, d: Decision)
    requires Fits(p, d) && Resumes(sv, p, d)
    ensures var ms, n := Decide(sv, p, d).messages, |p.messages|;
            && p.messages <= ms && |ms| == n + 1 + AnsweredDeferred(d.replay)
            && IsReport(sv, ms[n], p.pending, d.task)
  {
    ghost var first, rest := PendingAnswer(sv, p, d), DeferredAnswers(sv, p, d);
    AppendedShape(sv, p, d);
    PendingReports(sv, p, d);
    AddedAt(p.messages, first, rest, 0);
  }

  /** And then those of the deferred calls before the next one that waits, unless a lone one panics. */
  lemma {:induction false} DecisionReportsDeferred(sv: Services, p: Progress, d: Decision, i: nat)
    requires Fits(p, d) && Resumes(sv, p, d) && i < AnsweredDeferred(d.replay)
    ensures var ms, n := Decide(sv, p, d).messages, |p.messages|;
            n + 1 + i < |ms| && IsReport(sv, ms[n + 1 + i], p.deferred[i], d.replay[i].task)
  {
    ghost var first, rest := PendingAnswer(sv, p, d), DeferredAnswers(sv, p, d);
    AppendedShape(sv, p, d);
    DeferredReports(sv, p, d, i);
    AddedAt(p.messages, first, rest, i);
  }

  /** Why a decision ends the turn, and what it leaves otherwise. */
  lemma {:induction false} DecisionOutcome(sv: Services, p: Progress, d: Decision)
    requires Fits(p, d)
    ensures var r := Decide(sv, p, d);
            && (d.Decline? ==> r == Ended(p.messages, Declined))
            && (d.Approve? && d.task.Panicked? ==> r == Ended(p.messages, Panicking))
            && (d.Approve? && d.task.Finished? ==>
                  var ask := sv.authPrompt(p.pending.name, d.task.result);
                  ask.Some? ==> r == Ended(p.messages, Prompted(ask.value)))
            && (r.Waiting? ==>
                  d.Approve? && WaitsAt(d.replay) < |p.deferred|
                  && r.pending == p.deferred[WaitsAt(d.replay)] && r.deferred == p.deferred[WaitsAt(d.replay) + 1..])
  {
  }
}
