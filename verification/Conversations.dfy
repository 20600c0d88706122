/** Conversations over their whole life (src/agent/thread_ops.rs): thread mutations, user turns
    with their chat runs, and approval decisions that let a run go on, in any order. */
module Conversations {
  import opened Wrappers
  import opened Chat
  import Threads
  import ThreadRoundTrip
  import ToolBatches
  import opened ToolExecution
  import Loop = AgenticLoop
  import opened ChatRuns

  /** The turns of the thread, and the suspended batch while a call of it waits for approval. */
  datatype Conversation = Conversation(turns: seq<Threads.Turn>, pending: Option<ToolBatches.Progress>)

  /** One thread mutation; a user turn with its chat run; a decision, with the chat run that
      follows when the turn goes on; or the end of a pending approval without one. */
  datatype Step =
    | Mutate(op: Threads.Op)
    | UserTurn(c: Setup, input: string, run: seq<Turn>)
    | Decision(c: Setup, d: ToolBatches.Decision, run: seq<Turn>)
    | Forget

  predicate SoundRun(run: seq<Turn>) {
    forall i :: 0 <= i < |run| ==> Sound(run[i])
  }

  /** A decision comes with the outcome of every deferred call. */
  predicate Possible(s: Conversation, step: Step) {
    match step
    case UserTurn(_, _, run) => SoundRun(run)
    case Decision(_, d, run) => SoundRun(run) && (s.pending.Some? ==> ToolBatches.Fits(s.pending.value, d))
    case _ => true
  }

  /** The messages with which the step starts a chat run, if it starts one. */
  function Opening(s: Conversation, step: Step): Option<seq<ChatMessage>>
    requires Possible(s, step)
  {
    match step
    case UserTurn(_, input, _) => Some(Threads.Print(Threads.Apply(s.turns, Threads.Start(input))))
    case Decision(c, d, _) =>
      if s.pending.None? then None
      else
        var p := ToolBatches.Decide(c.services, s.pending.value, d);
        if p.Ready? then Some(p.messages) else None
    case _ => None
  }

  /** The requests that the step sends to the LLM. */
  function Requests(s: Conversation, step: Step): seq<seq<ChatMessage>>
    requires Possible(s, step)
  {
    var opening := Opening(s, step);
    if opening.Some? then SentFrom(step.c, 1, step.run, opening.value, 0) else []
  }

  /** What waits for approval after a chat run. */
  function AfterRun(c: Setup, run: seq<Turn>, opening: seq<ChatMessage>): Option<ToolBatches.Progress>
    requires SoundRun(run)
  {
    AsksAt(c, 1, run, opening, 0)
  }

  function Next(s: Conversation, step: Step): Conversation
    requires Possible(s, step)
  {
    match step
    case Mutate(op) => s.(turns := Threads.Apply(s.turns, op))
    case UserTurn(c, input, run) =>
      Conversation(Threads.Apply(s.turns, Threads.Start(input)), AfterRun(c, run, Opening(s, step).value))
    case Decision(c, d, run) =>
      if s.pending.None? then s
      else
        var p := ToolBatches.Decide(c.services, s.pending.value, d);
        s.(pending := if p.Ready? then AfterRun(c, run, p.messages) else if p.Waiting? then Some(p) else None)
    case Forget => s.(pending := None)
  }

  predicate Proper(s: Conversation, steps: seq<Step>)
    decreases |steps|
  {
    steps != [] ==> Possible(s, steps[0]) && Proper(Next(s, steps[0]), steps[1..])
  }

  function AllRequests(s: Conversation, steps: seq<Step>): seq<seq<ChatMessage>>
    requires Proper(s, steps)
    decreases |steps|
  {
    if steps == [] then [] else Requests(s, steps[0]) + AllRequests(Next(s, steps[0]), steps[1..])
  }

  /** What each step sends: a user turn the requests of a chat run on the thread printed with the new
      input, a decision that lets the turn go on those of one on the conversation it leaves, and
      any other step none. */
  lemma {:induction false} RequestsExactly(s: Conversation, step: Step)
    requires Possible(s, step)
    ensures match step
            case UserTurn(c, input, run) =>
              Requests(s, step) == SentFrom(c, 1, run, Threads.Print(Threads.Apply(s.turns, Threads.Start(input))), 0)
            case Decision(c, d, run) =>
              Requests(s, step) ==
              if s.pending.Some? && ToolBatches.Decide(c.services, s.pending.value, d).Ready?
              then SentFrom(c, 1, run, ToolBatches.Decide(c.services, s.pending.value, d).messages, 0) else []
            case _ => Requests(s, step) == []
  {
  }

  /** What each step leaves pending: a run the batch it asks for, if any; a decision that waits again
      what waits; one that ends the turn nothing; and no other step but the last changes it. */
  lemma {:induction false} PendingExactly(s: Conversation, step: Step)
    requires Possible(s, step)
    ensures var next := Next(s, step).pending;
            match step
            case Mutate(_) => next == s.pending
            case UserTurn(c, input, run) =>
              next == AsksAt(c, 1, run, Threads.Print(Threads.Apply(s.turns, Threads.Start(input))), 0)
            case Decision(c, d, run) =>
              && (s.pending.None? ==> next == None)
              && (s.pending.Some? ==>
                    var p := ToolBatches.Decide(c.services, s.pending.value, d);
                    && (p.Waiting? ==> next == Some(p)) && (p.Ended? ==> next == None)
                    && (p.Ready? ==> next == AsksAt(c, 1, run, p.messages, 0)))
            case Forget => next == None
    ensures match step
            case Mutate(op) => Next(s, step).turns == Threads.Apply(s.turns, op)
            case UserTurn(_, input, _) => Next(s, step).turns == Threads.Apply(s.turns, Threads.Start(input))
            case _ => Next(s, step).turns == s.turns
  {
  }

  // ---- what every step keeps ----

  /** A pending batch continues a well-formed conversation: its first calls are answered. */
  ghost predicate Resumable(p: ToolBatches.Progress) {
    p.Waiting? && exists before, content, calls, answers :: Continues(p, before, content, calls, answers)
  }

  predicate Continues(p: ToolBatches.Progress, before: seq<ChatMessage>, content: Option<string>,
                      calls: seq<ToolCall>, answers: seq<ChatMessage>) {
    Protocol(before) && ToolBatches.Splits(before + [AssistantWithToolCalls(content, calls)], calls, answers, p)
  }

  ghost predicate CanResume(pending: Option<ToolBatches.Progress>) {
    pending.Some? ==> Resumable(pending.value)
  }

  ghost predicate Inv(s: Conversation) {
    CanResume(s.pending)
  }

  /** A decision leaves a batch that can be resumed, or a well-formed conversation to go on with. */
  lemma {:induction false} DecisionKeeps(sv: Services, p: ToolBatches.Progress, d: ToolBatches.Decision)
    requires Resumable(p) && ToolBatches.Fits(p, d)
    ensures var q := ToolBatches.Decide(sv, p, d); (q.Waiting? ==> Resumable(q)) && (q.Ready? ==> Protocol(q.messages))
  {
    var before, content, calls, answers :| Continues(p, before, content, calls, answers);
    var q, more := ToolBatches.Decide(sv, p, d), ToolBatches.Answered(sv, answers, p, d);
    ToolBatches.DecisionSplits(sv, before + [AssistantWithToolCalls(content, calls)], calls, answers, p, d);
    ToolBatches.SplitProtocol(before, calls, content, more, q);
    assert Continues(q, before, content, calls, more);
  }

  lemma {:induction false} SuspendedIsResumable(
    before: seq<ChatMessage>, calls: seq<ToolCall>, content: Option<string>, sv: Services, env: seq<CallEnv>)
    requires Protocol(before) && |env| == |calls| && Suspends(sv, calls, env)
    ensures Resumable(ToolBatches.Suspended(before, calls, content, sv, env))
  {
    var a := ApprovalAt(env);
    var p, answers := ToolBatches.Suspended(before, calls, content, sv, env), AnswersInOrder(sv, calls[..a], env[..a]);
    assert Continues(p, before, content, calls, answers);
  }

  lemma {:induction false} AskingIsResumable(c: Setup, n: nat, t: Turn, ms: seq<ChatMessage>)
    requires Sound(t) && Protocol(ms)
    ensures CanResume(Asking(c, n, t, ms))
  {
    SentProtocol(c, n, t, ms);
    if Asking(c, n, t, ms).Some? {
      var r := Final(t).reply;
      SuspendedIsResumable(AtReply(c, n, t, ms), r.calls, r.content, c.services, r.env);
    }
  }

  lemma {:induction false} AsksMore(c: Setup, n: nat, run: seq<Turn>, ms: seq<ChatMessage>, nudges: nat)
    requires run != [] && SoundRun(run) && Final(run[0]).Answered?
    requires Loop.IterationResult(Loop.ChatConfig(c.max), c.intent, Seen(c, n, run[0]), nudges).None?
    ensures SoundRun(run[1..])
    ensures AsksAt(c, n, run, ms, nudges)
         == AsksAt(c, n + 1, run[1..], After(c, n, run[0], ms),
                   Loop.NextNudges(Loop.ChatConfig(c.max), c.intent, Seen(c, n, run[0]), nudges))
  {
  }

  lemma {:induction false} AsksNow(c: Setup, n: nat, run: seq<Turn>, ms: seq<ChatMessage>, nudges: nat)
    requires run != [] && SoundRun(run)
    requires Loop.IterationResult(Loop.ChatConfig(c.max), c.intent, Seen(c, n, run[0]), nudges).Some?
    ensures AsksAt(c, n, run, ms, nudges) == Asking(c, n, run[0], ms)
  {
  }

  lemma {:induction false} FirstIteration(c: Setup, n: nat, run: seq<Turn>, ms: seq<ChatMessage>, nudges: nat)
    requires run != [] && SoundRun(run) && Protocol(ms)
    ensures !GoesOn(c, n, run[0], nudges) ==> CanResume(AsksAt(c, n, run, ms, nudges))
    ensures GoesOn(c, n, run[0], nudges) ==>
              && Final(run[0]).Answered? && SoundRun(run[1..]) && Protocol(After(c, n, run[0], ms))
              && AsksAt(c, n, run, ms, nudges)
                 == AsksAt(c, n + 1, run[1..], After(c, n, run[0], ms), NudgesAfter(c, n, run[0], nudges))
  {
    if GoesOn(c, n, run[0], nudges) {
      AfterProtocol(c, n, run[0], ms, nudges);
      AsksMore(c, n, run, ms, nudges);
    } else {
      AskingIsResumable(c, n, run[0], ms);
      AsksNow(c, n, run, ms, nudges);
    }
  }

  /** A run that starts well formed and asks for approval leaves a batch that can be resumed. */
  lemma {:induction false} RunKeeps(c: Setup, n: nat, run: seq<Turn>, ms: seq<ChatMessage>, nudges: nat)
    requires Protocol(ms) && SoundRun(run)
    ensures CanResume(AsksAt(c, n, run, ms, nudges))
    decreases |run|
  {
    if run != [] {
      FirstIteration(c, n, run, ms, nudges);
      if GoesOn(c, n, run[0], nudges) {
        RunKeeps(c, n + 1, run[1..], After(c, n, run[0], ms), NudgesAfter(c, n, run[0], nudges));
      }
    }
  }

  /** Every chat run of a conversation starts from a well-formed list. */
  lemma {:induction false} OpeningProtocol(s: Conversation, step: Step)
    requires Inv(s) && Possible(s, step)
    ensures Opening(s, step).Some? ==> Protocol(Opening(s, step).value)
  {
    match step
    case UserTurn(_, input, _) => ThreadRoundTrip.PrintedProtocol(Threads.Apply(s.turns, Threads.Start(input)));
    case Decision(c, d, _) => if s.pending.Some? { DecisionKeeps(c.services, s.pending.value, d); }
    case _ =>
  }

  lemma {:induction false} StepKeeps(s: Conversation, step: Step)
    requires Inv(s) && Possible(s, step)
    ensures Inv(Next(s, step))
  {
    OpeningProtocol(s, step);
    var opening := Opening(s, step);
    if opening.Some? { RunKeeps(step.c, 1, step.run, opening.value, 0); }
    if step.Decision? && s.pending.Some? { DecisionKeeps(step.c.services, s.pending.value, step.d); }
  }

  lemma {:induction false} RequestsOfStep(s: Conversation, step: Step)
    requires Inv(s) && Possible(s, step)
    ensures forall i :: 0 <= i < |Requests(s, step)| ==> Protocol(Requests(s, step)[i])
  {
    OpeningProtocol(s, step);
    var opening := Opening(s, step);
    if opening.Some? { RequestsAreWellFormed(step.c, 1, step.run, opening.value, 0); }
  }

  lemma {:induction false} RequestsFrom(s: Conversation, steps: seq<Step>)
    requires Inv(s) && Proper(s, steps)
    ensures forall i :: 0 <= i < |AllRequests(s, steps)| ==> Protocol(AllRequests(s, steps)[i])
    decreases |steps|
  {
    if steps != [] {
      RequestsOfStep(s, steps[0]);
      StepKeeps(s, steps[0]);
      RequestsFrom(Next(s, steps[0]), steps[1..]);
      AllProtocol(Requests(s, steps[0]), AllRequests(Next(s, steps[0]), steps[1..]));
    }
  }

  /** From the empty thread on, whatever is done to it and whatever the user decides, every
      request that any chat run sends to the LLM obeys the tool-call protocol. */
  lemma {:induction false} EveryRequestIsWellFormed(steps: seq<Step>)
    requires Proper(Conversation([], None), steps)
    ensures var sent := AllRequests(Conversation([], None), steps);
            forall i :: 0 <= i < |sent| ==> Protocol(sent[i])
  {
    RequestsFrom(Conversation([], None), steps);
  }
}
