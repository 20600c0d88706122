/** What tool batches do to the conversation: the tool-call protocol of the message list,
    suspension and approval rounds (src/agent/dispatcher.rs, src/agent/thread_ops.rs), and
    what the thread record keeps of a batch. */
module ToolBatches {
  import opened Wrappers
  import opened Chat
  import opened Threads
  import opened ToolExecution

  // ---- the message list ----

  lemma {:induction false} ProtocolCancel(a: seq<ChatMessage>, b: seq<ChatMessage>)
    requires Protocol(a) && Protocol(a + b)
    ensures Protocol(b)
    decreases |a|
  {
    if a == [] {
      assert a + b == b;
    } else if a[0].toolCalls.Some? {
      var n := 1 + |a[0].toolCalls.value|;
      assert (a + b)[n..] == a[n..] + b;
      ProtocolCancel(a[n..], b);
    } else {
      assert (a + b)[1..] == a[1..] + b;
      ProtocolCancel(a[1..], b);
    }
  }

  lemma {:induction false} ProtocolAppend(before: seq<ChatMessage>, batch: seq<ChatMessage>)
    requires Protocol(before)
    ensures Protocol(before + batch) <==> Protocol(batch)
  {
    if Protocol(batch) {
      ProtocolConcat(before, batch);
    } else if Protocol(before + batch) {
      ProtocolCancel(before, batch);
    }
  }

  lemma {:induction false} AnsweredDeclaration(head: ChatMessage, answers: seq<ChatMessage>)
    requires DeclaresCalls(head) && head.toolCalls.value != [] && Answers(head.toolCalls.value, answers)
    ensures Protocol([head] + answers)
  {
    var ms, n := [head] + answers, 1 + |answers|;
    assert ms[1..n] == answers && ms[n..] == [];
  }

  lemma {:induction false} DeclarationProtocol(calls: seq<ToolCall>, content: Option<string>, answers: seq<ChatMessage>)
    requires |answers| <= |calls| && Answers(calls[..|answers|], answers)
    ensures Protocol([AssistantWithToolCalls(content, calls)] + answers) <==> |answers| == |calls|
  {
    var head := AssistantWithToolCalls(content, calls);
    if calls == [] {
      assert Protocol([head]) && [head] + answers == [head];
    } else if |answers| == |calls| {
      assert calls[..|answers|] == calls;
      AnsweredDeclaration(head, answers);
    }
  }

  lemma {:induction false} BatchProtocolFrom(
    before: seq<ChatMessage>, calls: seq<ToolCall>, content: Option<string>, answers: seq<ChatMessage>)
    requires Protocol(before) && |answers| <= |calls| && Answers(calls[..|answers|], answers)
    ensures Protocol(before + [AssistantWithToolCalls(content, calls)] + answers) <==> |answers| == |calls|
  {
    var head := AssistantWithToolCalls(content, calls);
    DeclarationProtocol(calls, content, answers);
    ProtocolAppend(before, [head] + answers);
    assert before + [head] + answers == before + ([head] + answers);
  }

  /** The messages a batch leaves, whatever its outcome: only the declaration when a lone call
      panics, else the answers of the calls before the one that waits. */
  function BatchMessages(before: seq<ChatMessage>, calls: seq<ToolCall>, content: Option<string>,
                         sv: Services, env: seq<CallEnv>): seq<ChatMessage>
    requires |env| == |calls|
  {
    var a := ApprovalAt(env);
    before + [AssistantWithToolCalls(content, calls)]
    + if Unwinds(env) then [] else AnswersInOrder(sv, calls[..a], env[..a])
  }

  /** A batch leaves a well-formed conversation well formed exactly when none of its calls waits
      for approval and no lone call panics. So a batch that lets the loop continue always does,
      and an auth prompt does exactly when no call of the batch was left waiting. */
  lemma {:induction false} BatchProtocol(before: seq<ChatMessage>, calls: seq<ToolCall>, content: Option<string>,
                      sv: Services, env: seq<CallEnv>)
    requires |env| == |calls| && Protocol(before)
    ensures Protocol(BatchMessages(before, calls, content, sv, env)) <==> ApprovalAt(env) == |calls| && !Unwinds(env)
  {
    var a := ApprovalAt(env);
    var answers := if Unwinds(env) then [] else AnswersInOrder(sv, calls[..a], env[..a]);
    RunnableIndices(env, a);
    BatchProtocolFrom(before, calls, content, answers);
  }

  // ---- approval rounds ----

  /** Why a turn ends without the loop going on. */
  datatype Ending = Declined | Prompted(instructions: string) | Panicking

  /** A suspended conversation with its pending and deferred calls, one that may go on, or
      one whose turn has ended, with the messages it had then. */
  datatype Progress =
    | Waiting(messages: seq<ChatMessage>, pending: ToolCall, deferred: seq<ToolCall>)
    | Ready(messages: seq<ChatMessage>)
    | Ended(messages: seq<ChatMessage>, why: Ending)

  /** What the environment contributes to one deferred call; no hook is asked again. */
  datatype Replay = Replay(needsApproval: bool, task: Task)

  /** The user's decision on the pending call: with an approval comes how its tool ends. */
  datatype Decision = Decline | Approve(task: Task, replay: seq<Replay>)

  /** The first deferred call that waits in turn. */
  function WaitsAt(replay: seq<Replay>): (q: nat)
    ensures q <= |replay|
  {
    if replay == [] || replay[0].needsApproval then 0 else 1 + WaitsAt(replay[1..])
  }

  /** `process_tool_result`: the approval path words a failure differently from a batch. */
  function ProcessedContent(sv: Services, name: string, result: Result<string, string>): string {
    match result
    case Ok(output) => sv.wrap(name, output)
    case Err(error) => "Error: " + error
  }

  function ReplayAnswer(sv: Services, call: ToolCall, r: Replay): ChatMessage {
    ToolResult(call.id, call.name, ProcessedContent(sv, call.name, TaskResult(call.name, r.task)))
  }

  function Replayed(sv: Services, deferred: seq<ToolCall>, replay: seq<Replay>): (r: seq<ChatMessage>)
    requires |replay| == |deferred|
  {
    seq(|deferred|, i requires 0 <= i < |deferred| => ReplayAnswer(sv, deferred[i], replay[i]))
  }

  /** The first auth prompt among replayed calls. */
  function ReplayPrompt(sv: Services, deferred: seq<ToolCall>, replay: seq<Replay>): Option<string>
    requires |replay| == |deferred|
  {
    if deferred == [] then None
    else
      var prompt := sv.authPrompt(deferred[0].name, TaskResult(deferred[0].name, replay[0].task));
      if prompt.Some? then prompt else ReplayPrompt(sv, deferred[1..], replay[1..])
  }

  predicate Fits(p: Progress, d: Decision) {
    p.Waiting? && (d.Approve? ==> |d.replay| == |p.deferred|)
  }

  /** The approved tool ran and its result asks for no authentication. */
  predicate Resumes(sv: Services, p: Progress, d: Decision)
    requires p.Waiting?
  {
    d.Approve? && d.task.Finished? && sv.authPrompt(p.pending.name, d.task.result).None?
  }

  /** One deferred call alone is run in place, where a panic is not caught. */
  predicate LonePanic(replay: seq<Replay>) {
    WaitsAt(replay) == 1 && replay[0].task.Panicked?
  }

  /** What a resumed turn appends: the approved call's result, then the replayed ones. */
  function Appended(sv: Services, p: Progress, d: Decision): (r: seq<ChatMessage>)
    requires Fits(p, d) && Resumes(sv, p, d)
    ensures |r| == 1 + if LonePanic(d.replay) then 0 else WaitsAt(d.replay)
  {
    var q := WaitsAt(d.replay);
    [ToolResult(p.pending.id, p.pending.name, ProcessedContent(sv, p.pending.name, d.task.result))]
    + if LonePanic(d.replay) then [] else Replayed(sv, p.deferred[..q], d.replay[..q])
  }

  /** The prompt that ends a resumed turn after its replay. */
  function LatePrompt(sv: Services, p: Progress, d: Decision): Option<string>
    requires Fits(p, d) && d.Approve?
  {
    var q := WaitsAt(d.replay);
    ReplayPrompt(sv, p.deferred[..q], d.replay[..q])
  }

  /** Where a turn stands after its replay. */
  function Onward(
    messages: seq<ChatMessage>, deferred: seq<ToolCall>, q: nat, lone: bool, prompt: Option<string>): Progress
    requires q <= |deferred|
  {
    if lone then Ended(messages, Panicking)
    else if prompt.Some? then Ended(messages, Prompted(prompt.value))
    else if q == |deferred| then Ready(messages)
    else Waiting(messages, deferred[q], deferred[q + 1..])
  }

  function Decide(sv: Services, p: Progress, d: Decision): Progress
    requires Fits(p, d)
  {
    if d.Decline? then Ended(p.messages, Declined)
    else if d.task.Panicked? then Ended(p.messages, Panicking)
    else if !Resumes(sv, p, d) then
      Ended(p.messages, Prompted(sv.authPrompt(p.pending.name, d.task.result).value))
    else
      Onward(p.messages + Appended(sv, p, d), p.deferred, WaitsAt(d.replay), LonePanic(d.replay), LatePrompt(sv, p, d))
  }

  /** `process_approval`, from the user's decision to the point where the loop goes on. */
  method ProcessApproval(sv: Services, p: Progress, d: Decision) returns (r: Progress)
    requires Fits(p, d)
    ensures r == Decide(sv, p, d)
  {
    if d.Decline? {
      return Ended(p.messages, Declined);
    }
    if d.task.Panicked? {
      return Ended(p.messages, Panicking);
    }
    var messages := p.messages;
    var content := ProcessedContent(sv, p.pending.name, d.task.result);
    var prompt := sv.authPrompt(p.pending.name, d.task.result);
    if prompt.Some? {
      return Ended(messages, Prompted(prompt.value));
    }
    var result := [ToolResult(p.pending.id, p.pending.name, content)];
    var q := FindWaiting(d.replay);
    if q == 1 && d.replay[0].task.Panicked? {
      assert Appended(sv, p, d) == result;
      return Ended(messages + result, Panicking);
    }
    var more, late := ReplayDeferred(sv, p.deferred[..q], d.replay[..q]);
    assert Appended(sv, p, d) == result + more;
    messages := messages + (result + more);
    if late.Some? {
      return Ended(messages, Prompted(late.value));
    }
    if q < |p.deferred| {
      return Waiting(messages, p.deferred[q], p.deferred[q + 1..]);
    }
    r := Ready(messages);
  }

  method FindWaiting(replay: seq<Replay>) returns (q: nat)
    ensures q == WaitsAt(replay)
  {
    q := 0;
    while q < |replay|
      invariant q <= |replay| && WaitsAt(replay) == q + WaitsAt(replay[q..])
    {
      assert replay[q..][1..] == replay[q + 1..];
      if replay[q].needsApproval {
        return;
      }
      q := q + 1;
    }
  }

  method ReplayDeferred(sv: Services, deferred: seq<ToolCall>, replay: seq<Replay>)
    returns (more: seq<ChatMessage>, prompt: Option<string>)
    requires |replay| == |deferred|
    ensures more == Replayed(sv, deferred, replay) && prompt == ReplayPrompt(sv, deferred, replay)
  {
    more, prompt := [], None;
    ghost var answers := Replayed(sv, deferred, replay);
    var i := 0;
    while i < |deferred|
      invariant i <= |deferred| && more == answers[..i]
      invariant ReplayPrompt(sv, deferred, replay)
             == if prompt.Some? then prompt else ReplayPrompt(sv, deferred[i..], replay[i..])
    {
      ReplayPromptStep(sv, deferred, replay, i);
      if prompt.None? {
        prompt := sv.authPrompt(deferred[i].name, TaskResult(deferred[i].name, replay[i].task));
      }
      AppendNext([], answers, i);
      assert [] + answers[..i] == answers[..i] && [] + answers[..i + 1] == answers[..i + 1];
      more := more + [ReplayAnswer(sv, deferred[i], replay[i])];
      i := i + 1;
    }
    assert answers[..i] == answers;
  }

  lemma {:induction false} ReplayPromptStep(sv: Services, deferred: seq<ToolCall>, replay: seq<Replay>, i: nat)
    requires |replay| == |deferred| && i < |deferred|
    ensures var prompt := sv.authPrompt(deferred[i].name, TaskResult(deferred[i].name, replay[i].task));
            ReplayPrompt(sv, deferred[i..], replay[i..])
            == if prompt.Some? then prompt else ReplayPrompt(sv, deferred[i + 1..], replay[i + 1..])
  {
    assert deferred[i..][1..] == deferred[i + 1..] && replay[i..][1..] == replay[i + 1..];
  }

  // ---- what a decision does to a batch ----

  /** The conversation holds answers to the first n calls of the batch; if it waits, the next
      call is pending and all later ones are deferred. */
  predicate Splits(head: seq<ChatMessage>, calls: seq<ToolCall>, answers: seq<ChatMessage>, p: Progress) {
    var n := |answers|;
    && n <= |calls| && Answers(calls[..n], answers)
    && p.messages == head + answers
    && (p.Ready? ==> n == |calls|)
    && (p.Waiting? ==>
          && n < |calls| && p.pending.id == calls[n].id && p.pending.name == calls[n].name
          && p.deferred == calls[n + 1..])
  }

  /** The answers after one decision. */
  function Answered(sv: Services, answers: seq<ChatMessage>, p: Progress, d: Decision): seq<ChatMessage>
    requires Fits(p, d)
  {
    if Resumes(sv, p, d) then answers + Appended(sv, p, d) else answers
  }

  /** Every call of the batch has its answer after this decision. */
  predicate Completes(sv: Services, p: Progress, d: Decision)
    requires Fits(p, d)
  {
    Resumes(sv, p, d) && WaitsAt(d.replay) == |p.deferred| && !LonePanic(d.replay)
  }

  /** The messages answer the calls of the batch from call n on. */
  predicate AnswersFrom(calls: seq<ToolCall>, n: nat, more: seq<ChatMessage>) {
    n + |more| <= |calls| && forall i :: n <= i < n + |more| ==> AnswersCall(calls[i], more[i - n])
  }

  lemma {:induction false} ReplayAnswers(
    sv: Services, calls: seq<ToolCall>, n: nat, deferred: seq<ToolCall>, replay: seq<Replay>)
    requires n <= |calls| && |replay| == |deferred| && deferred <= calls[n..]
    ensures AnswersFrom(calls, n, Replayed(sv, deferred, replay))
  {
    forall i | n <= i < n + |deferred|
      ensures AnswersCall(calls[i], Replayed(sv, deferred, replay)[i - n])
    {
      assert deferred[i - n] == calls[n..][i - n] == calls[i];
    }
  }

  lemma {:induction false} AnswersFromHead(calls: seq<ToolCall>, n: nat, first: ChatMessage, more: seq<ChatMessage>)
    requires n < |calls| && AnswersCall(calls[n], first) && AnswersFrom(calls, n + 1, more)
    ensures AnswersFrom(calls, n, [first] + more)
  {
    forall i | n <= i < n + 1 + |more|
      ensures AnswersCall(calls[i], ([first] + more)[i - n])
    {
      if i > n { assert ([first] + more)[i - n] == more[i - (n + 1)]; }
    }
  }

  /** A resumed turn appends the next answers of the batch. */
  lemma {:induction false} AppendedAnswers(sv: Services, calls: seq<ToolCall>, n: nat, p: Progress, d: Decision)
    requires Fits(p, d) && Resumes(sv, p, d) && n < |calls|
    requires p.pending.id == calls[n].id && p.pending.name == calls[n].name && p.deferred == calls[n + 1..]
    ensures AnswersFrom(calls, n, Appended(sv, p, d))
  {
    var q := WaitsAt(d.replay);
    var first := ToolResult(p.pending.id, p.pending.name, ProcessedContent(sv, p.pending.name, d.task.result));
    var rest := if LonePanic(d.replay) then [] else Replayed(sv, p.deferred[..q], d.replay[..q]);
    assert AnswersFrom(calls, n + 1, rest) by {
      if !LonePanic(d.replay) { ReplayAnswers(sv, calls, n + 1, p.deferred[..q], d.replay[..q]); }
    }
    AnswersFromHead(calls, n, first, rest);
  }

  lemma {:induction false} AnswersMore(calls: seq<ToolCall>, answers: seq<ChatMessage>, more: seq<ChatMessage>)
    requires |answers| <= |calls| && Answers(calls[..|answers|], answers) && AnswersFrom(calls, |answers|, more)
    ensures Answers(calls[..|answers| + |more|], answers + more)
  {
    var n, all := |answers|, answers + more;
    forall i | 0 <= i < |all|
      ensures AnswersCall(calls[i], all[i])
    {
      if i < n { assert calls[..n][i] == calls[i] && all[i] == answers[i]; }
      else { assert all[i] == more[i - n]; }
    }
  }

  /** The conversation gains an answer exactly when the approved tool ran without asking for
      authentication, and holds all answers exactly when, besides, nothing waits or panics alone. */
  lemma {:induction false} DecisionAnswers(
    sv: Services, head: seq<ChatMessage>, calls: seq<ToolCall>, answers: seq<ChatMessage>, p: Progress, d: Decision)
    requires Fits(p, d) && Splits(head, calls, answers, p)
    ensures p.messages <= Decide(sv, p, d).messages
    ensures p.messages != Decide(sv, p, d).messages <==> Resumes(sv, p, d)
    ensures |Decide(sv, p, d).messages| == |head| + |calls| <==> Completes(sv, p, d)
    ensures Decide(sv, p, d).Ready? <==> Completes(sv, p, d) && LatePrompt(sv, p, d).None?
  {
  }

  lemma {:induction false} WaitsAfterAnAnswer(sv: Services, answers: seq<ChatMessage>, p: Progress, d: Decision)
    requires Fits(p, d)
    ensures Decide(sv, p, d).Waiting? ==> |Answered(sv, answers, p, d)| > |answers|
  {
  }

  /** Whatever is decided, the answers stay those of the first calls, in order, and what is
      left splits again into the pending call and the deferred ones. */
  lemma {:induction false} DecisionSplits(
    sv: Services, head: seq<ChatMessage>, calls: seq<ToolCall>, answers: seq<ChatMessage>, p: Progress, d: Decision)
    requires Fits(p, d) && Splits(head, calls, answers, p)
    ensures Splits(head, calls, Answered(sv, answers, p, d), Decide(sv, p, d))
  {
    if Resumes(sv, p, d) {
      AppendedAnswers(sv, calls, |answers|, p, d);
      ResumedSplits(head, calls, answers, Appended(sv, p, d), p.messages, p.deferred, WaitsAt(d.replay),
                    LonePanic(d.replay), LatePrompt(sv, p, d));
    }
  }

  lemma {:induction false} ResumedSplits(
    head: seq<ChatMessage>, calls: seq<ToolCall>, answers: seq<ChatMessage>, more: seq<ChatMessage>,
    messages: seq<ChatMessage>, deferred: seq<ToolCall>, q: nat, lone: bool, prompt: Option<string>)
    requires |answers| < |calls| && Answers(calls[..|answers|], answers)
    requires messages == head + answers && deferred == calls[|answers| + 1..]
    requires q <= |deferred| && |more| == 1 + if lone then 0 else q
    requires AnswersFrom(calls, |answers|, more)
    ensures Splits(head, calls, answers + more, Onward(messages + more, deferred, q, lone, prompt))
  {
    AnswersMore(calls, answers, more);
    assert messages + more == head + (answers + more);
    if q < |deferred| { DeferredTail(calls, |answers|, q); }
  }

  lemma {:induction false} DeferredTail(calls: seq<ToolCall>, n: nat, q: nat)
    requires n + 1 + q < |calls|
    ensures calls[n + 1..][q] == calls[n + 1 + q] && calls[n + 1..][q + 1..] == calls[n + 1 + q + 1..]
  {
  }

  // ---- all rounds of a batch ----

  predicate DecisionsFit(sv: Services, p: Progress, ds: seq<Decision>)
    decreases |ds|
  {
    ds != [] ==> Fits(p, ds[0]) && DecisionsFit(sv, Decide(sv, p, ds[0]), ds[1..])
  }

  function DecideAll(sv: Services, p: Progress, ds: seq<Decision>): Progress
    requires DecisionsFit(sv, p, ds)
    decreases |ds|
  {
    if ds == [] then p else DecideAll(sv, Decide(sv, p, ds[0]), ds[1..])
  }

  /** The state before the last decision. */
  function BeforeLast(sv: Services, p: Progress, ds: seq<Decision>): (r: Progress)
    requires ds != [] && DecisionsFit(sv, p, ds)
    ensures Fits(r, ds[|ds| - 1])
    decreases |ds|
  {
    if |ds| == 1 then p else BeforeLast(sv, Decide(sv, p, ds[0]), ds[1..])
  }

  /** The state `execute_tool_calls` leaves when it asks for approval. */
  function Suspended(before: seq<ChatMessage>, calls: seq<ToolCall>, content: Option<string>,
                     sv: Services, env: seq<CallEnv>): Progress
    requires |env| == |calls| && Suspends(sv, calls, env)
  {
    var a := ApprovalAt(env);
    Waiting(before + [AssistantWithToolCalls(content, calls)] + AnswersInOrder(sv, calls[..a], env[..a]),
            calls[a].(arguments := env[a].hook.arguments), calls[a + 1..])
  }

  lemma {:induction false} DecisionsSplit(
    sv: Services, head: seq<ChatMessage>, calls: seq<ToolCall>, answers: seq<ChatMessage>,
    p: Progress, ds: seq<Decision>)
    returns (prior: seq<ChatMessage>)
    requires ds != [] && DecisionsFit(sv, p, ds) && Splits(head, calls, answers, p)
    ensures Splits(head, calls, prior, BeforeLast(sv, p, ds)) && |prior| >= |answers| + |ds| - 1
    ensures DecideAll(sv, p, ds) == Decide(sv, BeforeLast(sv, p, ds), ds[|ds| - 1])
    decreases |ds|
  {
    if |ds| == 1 {
      prior := answers;
      assert ds[1..] == [];
    } else {
      ghost var next, more := Decide(sv, p, ds[0]), Answered(sv, answers, p, ds[0]);
      DecisionSplits(sv, head, calls, answers, p, ds[0]);
      WaitsAfterAnAnswer(sv, answers, p, ds[0]);
      assert Fits(next, ds[1..][0]);
      prior := DecisionsSplit(sv, head, calls, more, next, ds[1..]);
    }
  }

  /** A suspended batch through any number of decisions. The conversation ends well formed
      exactly when the last decision answers every call that was left, and the loop goes on
      exactly when, besides, no replayed call asks for authentication. No batch takes more
      decisions than it has unanswered calls. */
  lemma {:induction false} ApprovalRoundsComplete(
    before: seq<ChatMessage>, calls: seq<ToolCall>, content: Option<string>, sv: Services, env: seq<CallEnv>,
    ds: seq<Decision>)
    requires |env| == |calls| && Protocol(before) && Suspends(sv, calls, env)
    requires ds != [] && DecisionsFit(sv, Suspended(before, calls, content, sv, env), ds)
    ensures var p := Suspended(before, calls, content, sv, env);
            var last, d, end := BeforeLast(sv, p, ds), ds[|ds| - 1], DecideAll(sv, p, ds);
            && (Protocol(end.messages) <==> Completes(sv, last, d))
            && (end.Ready? <==> Completes(sv, last, d) && LatePrompt(sv, last, d).None?)
    ensures |ds| <= |calls| - ApprovalAt(env)
    ensures |ds| == |calls| - ApprovalAt(env) ==>
              !DecideAll(sv, Suspended(before, calls, content, sv, env), ds).Waiting?
  {
    var a := ApprovalAt(env);
    var head := before + [AssistantWithToolCalls(content, calls)];
    var p := Suspended(before, calls, content, sv, env);
    assert Splits(head, calls, AnswersInOrder(sv, calls[..a], env[..a]), p);
    var prior := DecisionsSplit(sv, head, calls, AnswersInOrder(sv, calls[..a], env[..a]), p, ds);
    var last, d := BeforeLast(sv, p, ds), ds[|ds| - 1];
    DecisionAnswers(sv, head, calls, prior, last, d);
    DecisionSplits(sv, head, calls, prior, last, d);
    SplitProtocol(before, calls, content, Answered(sv, prior, last, d), Decide(sv, last, d));
  }

  lemma {:induction false} SplitProtocol(
    before: seq<ChatMessage>, calls: seq<ToolCall>, content: Option<string>, answers: seq<ChatMessage>, p: Progress)
    requires Protocol(before) && Splits(before + [AssistantWithToolCalls(content, calls)], calls, answers, p)
    ensures Protocol(p.messages) <==> |answers| == |calls|
  {
    BatchProtocolFrom(before, calls, content, answers);
  }

  predicate EndsOnPrompt(p: Progress) {
    p.Ended? && p.why.Prompted?
  }

  /** The two ends on an auth prompt. The approved tool asks: nothing is appended, and the
      conversation is left without its answer and those of all deferred calls. A deferred one
      asks: the turn ends too, and the conversation is well formed exactly when none waited. */
  lemma {:induction false} PromptsEndTheTurn(
    before: seq<ChatMessage>, content: Option<string>, calls: seq<ToolCall>, answers: seq<ChatMessage>,
    sv: Services, p: Progress, d: Decision)
    requires Fits(p, d) && Protocol(before)
    requires Splits(before + [AssistantWithToolCalls(content, calls)], calls, answers, p)
    ensures var end := Decide(sv, p, d);
            && (EndsOnPrompt(end) && end.messages == p.messages
                <==> d.Approve? && d.task.Finished? && sv.authPrompt(p.pending.name, d.task.result).Some?)
            && (EndsOnPrompt(end) && end.messages != p.messages
                <==> Resumes(sv, p, d) && !LonePanic(d.replay) && LatePrompt(sv, p, d).Some?)
            && (EndsOnPrompt(end) ==>
                  (Protocol(end.messages) <==> end.messages != p.messages && WaitsAt(d.replay) == |p.deferred|))
  {
    var head := before + [AssistantWithToolCalls(content, calls)];
    DecisionAnswers(sv, head, calls, answers, p, d);
    DecisionSplits(sv, head, calls, answers, p, d);
    SplitProtocol(before, calls, content, Answered(sv, answers, p, d), Decide(sv, p, d));
  }

  // ---- the thread record ----

  function Entries(calls: seq<ToolCall>, env: seq<CallEnv>): seq<TurnToolCall>
    requires |calls| == |env|
  {
    seq(|calls|, i requires 0 <= i < |calls| => NewCall(calls[i].name, env[i].redacted))
  }

  /** One recorded answer on the last entry. */
  function Noted(c: TurnToolCall, op: Op): TurnToolCall
    requires op.Succeed? || op.Break?
  {
    if op.Succeed? then c.(result := Some(op.result)) else c.(error := Some(op.error))
  }

  function NotedAll(c: TurnToolCall, ops: seq<Op>): TurnToolCall
    requires forall i :: 0 <= i < |ops| ==> ops[i].Succeed? || ops[i].Break?
    decreases ops
  {
    if ops == [] then c else NotedAll(Noted(c, ops[0]), ops[1..])
  }

  function WithCalls(turns: seq<Turn>, calls: seq<TurnToolCall>): seq<Turn>
    requires turns != []
  {
    turns[|turns| - 1 := turns[|turns| - 1].(toolCalls := calls)]
  }

  lemma {:induction false} CallsRecorded(turns: seq<Turn>, calls: seq<ToolCall>, env: seq<CallEnv>, n: nat)
    requires turns != [] && |calls| == |env| && n <= |calls|
    ensures ApplyAll(turns, RecordCalls(calls, env)[..n])
         == WithCalls(turns, turns[|turns| - 1].toolCalls + Entries(calls, env)[..n])
  {
    var earlier := turns[|turns| - 1].toolCalls;
    if n == 0 {
      assert earlier + Entries(calls, env)[..0] == earlier;
    } else {
      CallsRecorded(turns, calls, env, n - 1);
      ApplyPrefix(turns, RecordCalls(calls, env), n - 1);
      var entries := Entries(calls, env);
      assert earlier + entries[..n] == earlier + entries[..n - 1] + [entries[n - 1]];
    }
  }

  lemma {:induction false} NoteOne(turns: seq<Turn>, cs: seq<TurnToolCall>, op: Op)
    requires turns != [] && cs != [] && (op.Succeed? || op.Break?)
    ensures Apply(WithCalls(turns, cs), op) == WithCalls(turns, cs[|cs| - 1 := Noted(cs[|cs| - 1], op)])
  {
  }

  lemma {:induction false} AnswersRecorded(turns: seq<Turn>, cs: seq<TurnToolCall>, ops: seq<Op>)
    requires turns != [] && cs != []
    requires forall i :: 0 <= i < |ops| ==> ops[i].Succeed? || ops[i].Break?
    ensures ApplyAll(WithCalls(turns, cs), ops)
         == WithCalls(turns, cs[|cs| - 1 := NotedAll(cs[|cs| - 1], ops)])
    decreases ops
  {
    var n := |cs| - 1;
    if ops == [] {
      assert cs[n := cs[n]] == cs;
    } else {
      var once := cs[n := Noted(cs[n], ops[0])];
      NoteOne(turns, cs, ops[0]);
      AnswersRecorded(turns, once, ops[1..]);
      UpdateTwice(cs, once[n], NotedAll(once[n], ops[1..]));
    }
  }

  lemma {:induction false} UpdateTwice<T>(s: seq<T>, x: T, y: T)
    requires s != []
    ensures s[|s| - 1 := x][|s| - 1 := y] == s[|s| - 1 := y]
  {
  }

  /** The calls of the last turn after a batch was declared. */
  function DeclaredOn(turns: seq<Turn>, calls: seq<ToolCall>, env: seq<CallEnv>): seq<TurnToolCall>
    requires turns != [] && |calls| == |env|
  {
    turns[|turns| - 1].toolCalls + Entries(calls, env)
  }

  /** What the thread keeps of a batch: all its calls, but every result and error on the
      last entry only, where a later one of the same kind replaces an earlier one. */
  lemma {:induction false} BatchRecorded(
    turns: seq<Turn>, sv: Services, calls: seq<ToolCall>, env: seq<CallEnv>, a: nat)
    requires turns != [] && calls != [] && |calls| == |env| && a <= |calls|
    ensures var cs := DeclaredOn(turns, calls, env);
            var ops := RecordAnswers(sv, calls[..a], env[..a]);
            ApplyAll(ApplyAll(turns, RecordCalls(calls, env)), ops)
            == WithCalls(turns, cs[|cs| - 1 := NotedAll(cs[|cs| - 1], ops)])
  {
    AllCallsRecorded(turns, calls, env);
    AnswersRecorded(turns, DeclaredOn(turns, calls, env), RecordAnswers(sv, calls[..a], env[..a]));
  }

  lemma {:induction false} AllCallsRecorded(turns: seq<Turn>, calls: seq<ToolCall>, env: seq<CallEnv>)
    requires turns != [] && |calls| == |env|
    ensures ApplyAll(turns, RecordCalls(calls, env)) == WithCalls(turns, DeclaredOn(turns, calls, env))
  {
    CallsRecorded(turns, calls, env, |calls|);
    assert RecordCalls(calls, env)[..|calls|] == RecordCalls(calls, env);
    assert Entries(calls, env)[..|calls|] == Entries(calls, env);
  }

  /** The entry of a call carries its own outcome. */
  predicate EntryMatches(sv: Services, call: ToolCall, env: CallEnv, entry: TurnToolCall) {
    entry == Noted(NewCall(call.name, env.redacted), RecordAnswer(sv, call, env))
  }

  /** The record carries the outcome of every answered call exactly when the batch is a
      single call or nothing was answered. */
  lemma {:induction false} RecordIsFaithful(
    turns: seq<Turn>, sv: Services, calls: seq<ToolCall>, env: seq<CallEnv>, a: nat)
    requires turns != [] && calls != [] && |calls| == |env| && a <= |calls|
    ensures var after := ApplyAll(ApplyAll(turns, RecordCalls(calls, env)), RecordAnswers(sv, calls[..a], env[..a]));
            var base := |turns[|turns| - 1].toolCalls|;
            && |after| == |turns| && |after[|turns| - 1].toolCalls| == base + |calls|
            && ((forall i :: 0 <= i < a ==> EntryMatches(sv, calls[i], env[i], after[|turns| - 1].toolCalls[base + i]))
                <==> |calls| == 1 || a == 0)
  {
    BatchRecorded(turns, sv, calls, env, a);
    var cs, ops := DeclaredOn(turns, calls, env), RecordAnswers(sv, calls[..a], env[..a]);
    var base, noted := |turns[|turns| - 1].toolCalls|, cs[|cs| - 1 := NotedAll(cs[|cs| - 1], ops)];
    if |calls| == 1 && a == 1 {
      assert ops[1..] == [];
      assert NotedAll(cs[base], ops) == Noted(cs[base], ops[0]);
    } else if a > 0 {
      assert noted[base] == NewCall(calls[0].name, env[0].redacted);
      assert !EntryMatches(sv, calls[0], env[0], noted[base + 0]);
    }
  }
}
