/** Whole chat runs (src/agent/dispatcher.rs over src/agent/agentic_loop.rs) with the messages
    they carry: the limit note, nudges, tool batches and the retry after a context overflow. */
module ChatRuns {
  import opened Wrappers
  import opened Chat
  import opened ToolExecution
  import opened RetryCompaction
  import Loop = AgenticLoop
  import ToolBatches

  const LIMIT_NOTE: string := "You are approaching the tool call limit. Provide your best final answer "
    + "on the next response using the information you have gathered so far. Do not call any more tools."

  /** What the LLM replies; with tool calls comes what the environment does to the batch. */
  datatype Reply = Said(text: string) | Asked(calls: seq<ToolCall>, content: Option<string>, env: seq<CallEnv>)

  /** How one request to the LLM ends. */
  datatype Request = Answered(reply: Reply) | Overflowed | Broken(error: string)

  /** What the environment contributes to one iteration: an interruption, a refusal of the cost
      guard, the tools on offer, the request and the retry that an overflow leads to. */
  datatype Turn = Turn(
    interrupted: bool, refused: Option<string>, toolsAvailable: bool, request: Request, retry: Request)

  /** Rust gives every call of a batch its own environment. */
  predicate Sound(t: Turn) {
    && (t.request.Answered? && t.request.reply.Asked? ==> |t.request.reply.env| == |t.request.reply.calls|)
    && (t.retry.Answered? && t.retry.reply.Asked? ==> |t.retry.reply.env| == |t.retry.reply.calls|)
  }

  /** The last request of an iteration. */
  function Final(t: Turn): Request {
    if t.request.Overflowed? then t.retry else t.request
  }

  /** `max` is the configured number of tool iterations, `nudgeText` the text that answers an
      announced but missing tool call, `strip` the removal of internal markers. */
  datatype Setup = Setup(
    max: nat, intent: string -> bool, nudgeText: string, strip: string -> string, services: Services)

  function NudgeAt(c: Setup): nat {
    if c.max == 0 then 0 else c.max - 1
  }

  function ForcesText(c: Setup, n: nat): bool {
    n >= c.max
  }

  // ---- one iteration ----

  /** The messages the iteration's first request carries. */
  function Prepared(c: Setup, n: nat, ms: seq<ChatMessage>): seq<ChatMessage> {
    if n == NudgeAt(c) then ms + [SystemMessage(LIMIT_NOTE)] else ms
  }

  /** The messages of its requests, in order. */
  function Sent(c: Setup, n: nat, t: Turn, ms: seq<ChatMessage>): seq<seq<ChatMessage>> {
    if t.interrupted || t.refused.Some? then []
    else
      var first := Prepared(c, n, ms);
      if t.request.Overflowed? then [first, Compacted(first)] else [first]
  }

  /** The messages when the reply is looked at. */
  function AtReply(c: Setup, n: nat, t: Turn, ms: seq<ChatMessage>): seq<ChatMessage> {
    if t.request.Overflowed? then Compacted(Prepared(c, n, ms)) else Prepared(c, n, ms)
  }

  predicate Nudges(c: Setup, n: nat, toolsAvailable: bool, text: string, nudges: nat) {
    toolsAvailable && !ForcesText(c, n) && nudges < 2 && c.intent(text)
  }

  /** The messages after a reply that does not end the loop. */
  function Extended(c: Setup, at: seq<ChatMessage>, reply: Reply): seq<ChatMessage>
    requires reply.Asked? ==> |reply.env| == |reply.calls|
  {
    match reply
    case Said(text) => at + [AssistantMessage(text), UserMessage(c.nudgeText)]
    case Asked(calls, content, env) =>
      at + ([AssistantWithToolCalls(content, calls)] + AnswersInOrder(c.services, calls, env))
  }

  function After(c: Setup, n: nat, t: Turn, ms: seq<ChatMessage>): seq<ChatMessage>
    requires Sound(t) && Final(t).Answered?
  {
    Extended(c, AtReply(c, n, t, ms), Final(t).reply)
  }

  const PANIC: string := "panic"
  const OVERFLOW: string := "context length exceeded"

  function BatchOutcome(c: Setup, calls: seq<ToolCall>, env: seq<CallEnv>): Result<Option<Loop.LoopOutcome>, string>
    requires |env| == |calls|
  {
    var a := ApprovalAt(env);
    var prompt := FirstPrompt(c.services, calls[..a], env[..a]);
    if Unwinds(env) then Err(PANIC)
    else if prompt.Some? then Ok(Some(Loop.Response(prompt.value)))
    else if a < |calls| then Ok(Some(Loop.NeedApproval))
    else Ok(None)
  }

  /** The iteration as the loop over an arbitrary delegate sees it. */
  function Seen(c: Setup, n: nat, t: Turn): Loop.Turn
    requires Sound(t)
  {
    var reply :=
      if t.refused.Some? then Loop.CallFailed(t.refused.value)
      else
        match Final(t)
        case Answered(Said(text)) => Loop.Text(text)
        case Answered(Asked(_, _, _)) => Loop.ToolCalls
        case Overflowed => Loop.CallFailed(OVERFLOW)
        case Broken(error) => Loop.CallFailed(error);
    var handled := if reply.Text? then Loop.Response(c.strip(reply.text)) else Loop.Response("");
    var executed :=
      if Final(t).Answered? && Final(t).reply.Asked? then BatchOutcome(c, Final(t).reply.calls, Final(t).reply.env)
      else Ok(None);
    Loop.Turn(if t.interrupted then Loop.Stop else Loop.Continue, None, reply, t.toolsAvailable,
              ForcesText(c, n), Some(handled), executed)
  }

  function SeenFrom(c: Setup, n: nat, turns: seq<Turn>): seq<Loop.Turn>
    requires forall i :: 0 <= i < |turns| ==> Sound(turns[i])
  {
    seq(|turns|, i requires 0 <= i < |turns| => Seen(c, n + i, turns[i]))
  }

  // ---- a run ----

  /** The requests of the run from iteration n on. */
  function SentFrom(c: Setup, n: nat, turns: seq<Turn>, ms: seq<ChatMessage>, nudges: nat): seq<seq<ChatMessage>>
    requires forall i :: 0 <= i < |turns| ==> Sound(turns[i])
    decreases |turns|
  {
    if turns == [] then []
    else
      var t, seen, cfg := turns[0], Seen(c, n, turns[0]), Loop.ChatConfig(c.max);
      Sent(c, n, t, ms)
      + if Loop.IterationResult(cfg, c.intent, seen, nudges).Some? then []
        else SentFrom(c, n + 1, turns[1..], After(c, n, t, ms), Loop.NextNudges(cfg, c.intent, seen, nudges))
  }

  /** The suspended batch of an iteration that asks for approval. */
  function Asking(c: Setup, n: nat, t: Turn, ms: seq<ChatMessage>): Option<ToolBatches.Progress>
    requires Sound(t)
  {
    if t.interrupted || t.refused.Some? then None
    else
      match Final(t)
      case Answered(Asked(calls, content, env)) =>
        if Suspends(c.services, calls, env) then
          Some(ToolBatches.Suspended(AtReply(c, n, t, ms), calls, content, c.services, env))
        else None
      case _ => None
  }

  /** The suspended batch with which the run from iteration n on ends, if it asks for approval. */
  function AsksAt(
    c: Setup, n: nat, turns: seq<Turn>, ms: seq<ChatMessage>, nudges: nat): Option<ToolBatches.Progress>
    requires forall i :: 0 <= i < |turns| ==> Sound(turns[i])
    decreases |turns|
  {
    if turns == [] then None
    else
      var t, seen, cfg := turns[0], Seen(c, n, turns[0]), Loop.ChatConfig(c.max);
      if Loop.IterationResult(cfg, c.intent, seen, nudges).Some? then Asking(c, n, t, ms)
      else AsksAt(c, n + 1, turns[1..], After(c, n, t, ms), Loop.NextNudges(cfg, c.intent, seen, nudges))
  }

  lemma {:induction false} AskingIsSeen(c: Setup, n: nat, t: Turn, ms: seq<ChatMessage>, nudges: nat)
    requires Sound(t)
    ensures Asking(c, n, t, ms).Some?
       <==> Loop.IterationResult(Loop.ChatConfig(c.max), c.intent, Seen(c, n, t), nudges) == Some(Ok(Loop.NeedApproval))
  {
  }

  /** The iteration does not end the run. */
  predicate GoesOn(c: Setup, n: nat, t: Turn, nudges: nat)
    requires Sound(t)
  {
    Loop.IterationResult(Loop.ChatConfig(c.max), c.intent, Seen(c, n, t), nudges).None?
  }

  /** The nudges in a row after it. */
  function NudgesAfter(c: Setup, n: nat, t: Turn, nudges: nat): nat
    requires Sound(t)
  {
    Loop.NextNudges(Loop.ChatConfig(c.max), c.intent, Seen(c, n, t), nudges)
  }

  lemma {:induction false} PreparedProtocol(c: Setup, n: nat, ms: seq<ChatMessage>)
    requires Protocol(ms)
    ensures Protocol(Prepared(c, n, ms))
  {
    var note := [SystemMessage(LIMIT_NOTE)];
    assert note[1..] == [];
    ProtocolConcat(ms, note);
  }

  lemma {:induction false} SentProtocol(c: Setup, n: nat, t: Turn, ms: seq<ChatMessage>)
    requires Protocol(ms)
    ensures Protocol(AtReply(c, n, t, ms))
    ensures forall i :: 0 <= i < |Sent(c, n, t, ms)| ==> Protocol(Sent(c, n, t, ms)[i])
  {
    PreparedProtocol(c, n, ms);
    var first := Prepared(c, n, ms);
    KeepsProtocol(first);
    BothProtocol(Sent(c, n, t, ms), first, Compacted(first));
  }

  lemma {:induction false} BothProtocol(sent: seq<seq<ChatMessage>>, first: seq<ChatMessage>, second: seq<ChatMessage>)
    requires Protocol(first) && Protocol(second) && (sent == [] || sent == [first] || sent == [first, second])
    ensures forall i :: 0 <= i < |sent| ==> Protocol(sent[i])
  {
  }

  lemma {:induction false} NudgeProtocol(text: string, nudge: string)
    ensures Protocol([AssistantMessage(text), UserMessage(nudge)])
  {
    var ms := [AssistantMessage(text), UserMessage(nudge)];
    assert ms[1..] == [UserMessage(nudge)] && ms[1..][1..] == [];
    assert Protocol(ms[1..]);
  }

  /** An iteration that does not end the loop leaves a well-formed conversation. */
  lemma {:induction false} AfterProtocol(c: Setup, n: nat, t: Turn, ms: seq<ChatMessage>, nudges: nat)
    requires Sound(t) && Protocol(ms)
    requires Loop.IterationResult(Loop.ChatConfig(c.max), c.intent, Seen(c, n, t), nudges).None?
    ensures Final(t).Answered? && Protocol(After(c, n, t, ms))
  {
    SentProtocol(c, n, t, ms);
    var at := AtReply(c, n, t, ms);
    match Final(t).reply
    case Said(text) =>
      NudgeProtocol(text, c.nudgeText);
      ProtocolConcat(at, [AssistantMessage(text), UserMessage(c.nudgeText)]);
    case Asked(calls, content, env) =>
      assert calls[..|calls|] == calls && env[..|env|] == env;
      ToolBatches.DeclarationProtocol(calls, content, AnswersInOrder(c.services, calls, env));
      ProtocolConcat(at, [AssistantWithToolCalls(content, calls)] + AnswersInOrder(c.services, calls, env));
  }

  /** In every chat run that starts from a well-formed conversation, every request the LLM gets
      is well formed: through the limit note, nudges, tool batches that continue, and the
      compaction before a retry. */
  lemma {:induction false} RequestsAreWellFormed(c: Setup, n: nat, turns: seq<Turn>, ms: seq<ChatMessage>, nudges: nat)
    requires Protocol(ms) && forall i :: 0 <= i < |turns| ==> Sound(turns[i])
    ensures forall i :: 0 <= i < |SentFrom(c, n, turns, ms, nudges)| ==> Protocol(SentFrom(c, n, turns, ms, nudges)[i])
    decreases |turns|
  {
    if turns != [] {
      SentProtocol(c, n, turns[0], ms);
      var seen, cfg := Seen(c, n, turns[0]), Loop.ChatConfig(c.max);
      if Loop.IterationResult(cfg, c.intent, seen, nudges).None? {
        AfterProtocol(c, n, turns[0], ms, nudges);
        var next, after := Loop.NextNudges(cfg, c.intent, seen, nudges), After(c, n, turns[0], ms);
        RequestsAreWellFormed(c, n + 1, turns[1..], after, next);
        SentMore(c, n, turns, ms, nudges);
        AllProtocol(Sent(c, n, turns[0], ms), SentFrom(c, n + 1, turns[1..], after, next));
      } else {
        SentLast(c, n, turns, ms, nudges);
      }
    }
  }

  lemma {:induction false} AllProtocol(a: seq<seq<ChatMessage>>, b: seq<seq<ChatMessage>>)
    requires forall i :: 0 <= i < |a| ==> Protocol(a[i])
    requires forall i :: 0 <= i < |b| ==> Protocol(b[i])
    ensures forall i :: 0 <= i < |a + b| ==> Protocol((a + b)[i])
  {
    forall i | 0 <= i < |a + b|
      ensures Protocol((a + b)[i])
    {
      assert (a + b)[i] == if i < |a| then a[i] else b[i - |a|];
    }
  }

  // ---- the chat delegate is the one whose limits are bounded ----

  lemma {:induction false} SeenIsChat(c: Setup, n: nat, turns: seq<Turn>)
    requires forall i :: 0 <= i < |turns| ==> Sound(turns[i])
    ensures Loop.ChatTurns(c.max, n, SeenFrom(c, n, turns))
  {
  }

  /** The model answers with text when tools are withheld. */
  predicate Obedient(c: Setup, n: nat, turns: seq<Turn>) {
    forall i :: 0 <= i < |turns| && ForcesText(c, n + i) && Final(turns[i]).Answered? ==> Final(turns[i]).reply.Said?
  }

  /** So a chat run ends by itself, with at most two requests an iteration. */
  lemma {:induction false} ChatRunEnds(c: Setup, turns: seq<Turn>, ms: seq<ChatMessage>)
    requires |turns| == c.max + 1 && Obedient(c, 1, turns)
    requires forall i :: 0 <= i < |turns| ==> Sound(turns[i])
    ensures Loop.Run(Loop.ChatConfig(c.max), c.intent, SeenFrom(c, 1, turns), 0).0 != Ok(Loop.MaxIterations)
    ensures |SentFrom(c, 1, turns, ms, 0)| <= 2 * if c.max == 0 then 1 else c.max
  {
    SeenIsChat(c, 1, turns);
    assert Loop.Obeys(SeenFrom(c, 1, turns));
    Loop.ChatLoopTerminates(c.max, c.intent, SeenFrom(c, 1, turns));
    RequestsAreFew(c, 1, turns, ms, 0);
  }

  lemma {:induction false} SeenTail(c: Setup, n: nat, turns: seq<Turn>)
    requires turns != [] && forall i :: 0 <= i < |turns| ==> Sound(turns[i])
    ensures SeenFrom(c, n, turns)[0] == Seen(c, n, turns[0])
    ensures SeenFrom(c, n, turns)[1..] == SeenFrom(c, n + 1, turns[1..])
  {
  }

  /** Every LLM call of the loop makes at most two requests. */
  lemma {:induction false} RequestsAreFew(c: Setup, n: nat, turns: seq<Turn>, ms: seq<ChatMessage>, nudges: nat)
    requires forall i :: 0 <= i < |turns| ==> Sound(turns[i])
    ensures |SentFrom(c, n, turns, ms, nudges)|
         <= 2 * Loop.CountCalls(Loop.Run(Loop.ChatConfig(c.max), c.intent, SeenFrom(c, n, turns), nudges).1)
    decreases |turns|
  {
    if turns != [] {
      SeenTail(c, n, turns);
      CallsOfIteration(c, n, turns[0], ms, nudges);
      var seen, cfg := SeenFrom(c, n, turns), Loop.ChatConfig(c.max);
      if Loop.IterationResult(cfg, c.intent, seen[0], nudges).None? {
        OnlyAnswersGoOn(c, n, turns[0], nudges);
        var next := Loop.NextNudges(cfg, c.intent, seen[0], nudges);
        RequestsAreFew(c, n + 1, turns[1..], After(c, n, turns[0], ms), next);
        GoingOn(cfg, c.intent, seen, nudges);
        SentMore(c, n, turns, ms, nudges);
      } else {
        Loop.RunStops(cfg, c.intent, seen, nudges);
        SentLast(c, n, turns, ms, nudges);
      }
    }
  }

  lemma {:induction false} OnlyAnswersGoOn(c: Setup, n: nat, t: Turn, nudges: nat)
    requires Sound(t) && Loop.IterationResult(Loop.ChatConfig(c.max), c.intent, Seen(c, n, t), nudges).None?
    ensures Final(t).Answered?
  {
  }

  lemma {:induction false} SentMore(c: Setup, n: nat, turns: seq<Turn>, ms: seq<ChatMessage>, nudges: nat)
    requires turns != [] && forall i :: 0 <= i < |turns| ==> Sound(turns[i])
    requires Loop.IterationResult(Loop.ChatConfig(c.max), c.intent, Seen(c, n, turns[0]), nudges).None?
    requires Final(turns[0]).Answered?
    ensures var next := Loop.NextNudges(Loop.ChatConfig(c.max), c.intent, Seen(c, n, turns[0]), nudges);
            SentFrom(c, n, turns, ms, nudges)
            == Sent(c, n, turns[0], ms) + SentFrom(c, n + 1, turns[1..], After(c, n, turns[0], ms), next)
  {
  }

  lemma {:induction false} SentLast(c: Setup, n: nat, turns: seq<Turn>, ms: seq<ChatMessage>, nudges: nat)
    requires turns != [] && forall i :: 0 <= i < |turns| ==> Sound(turns[i])
    requires Loop.IterationResult(Loop.ChatConfig(c.max), c.intent, Seen(c, n, turns[0]), nudges).Some?
    ensures SentFrom(c, n, turns, ms, nudges) == Sent(c, n, turns[0], ms)
  {
  }

  lemma {:induction false} GoingOn(cfg: Loop.Config, intent: string -> bool, turns: seq<Loop.Turn>, nudges: nat)
    requires turns != [] && Loop.IterationResult(cfg, intent, turns[0], nudges).None?
    ensures var next := Loop.NextNudges(cfg, intent, turns[0], nudges);
            Loop.CountCalls(Loop.Run(cfg, intent, turns, nudges).1)
            == Loop.CountCalls(Loop.IterationEvents(cfg, intent, turns[0], nudges))
               + Loop.CountCalls(Loop.Run(cfg, intent, turns[1..], next).1)
  {
    var next := Loop.NextNudges(cfg, intent, turns[0], nudges);
    var events := Loop.IterationEvents(cfg, intent, turns[0], nudges);
    Loop.CountCallsConcat(events, Loop.Run(cfg, intent, turns[1..], next).1);
  }

  lemma {:induction false} CallsOfIteration(c: Setup, n: nat, t: Turn, ms: seq<ChatMessage>, nudges: nat)
    requires Sound(t)
    ensures |Sent(c, n, t, ms)|
         <= 2 * Loop.CountCalls(Loop.IterationEvents(Loop.ChatConfig(c.max), c.intent, Seen(c, n, t), nudges))
  {
    var seen, cfg := Seen(c, n, t), Loop.ChatConfig(c.max);
    if !t.interrupted {
      var opening := Loop.Opening(seen);
      assert opening == [Loop.Called] && opening[1..] == [];
      Loop.CountCallsConcat(opening, Loop.Closing(cfg, c.intent, seen, nudges));
    }
  }

  // ---- the loop itself ----

  /** The chat loop over a delegate that holds the conversation. */
  method RunChat(c: Setup, delegate: ChatDelegate, turns: seq<Turn>)
    returns (result: Loop.LoopResult, sent: seq<seq<ChatMessage>>)
    requires |turns| == c.max + 1 && delegate.services == c.services
    requires forall i :: 0 <= i < |turns| ==> Sound(turns[i])
    modifies delegate, delegate.thread
    ensures sent == SentFrom(c, 1, turns, old(delegate.messages), 0)
    ensures result == Loop.Run(Loop.ChatConfig(c.max), c.intent, SeenFrom(c, 1, turns), 0).0
    ensures Protocol(old(delegate.messages)) ==> forall i :: 0 <= i < |sent| ==> Protocol(sent[i])
    ensures var asks := AsksAt(c, 1, turns, old(delegate.messages), 0);
            && (result == Ok(Loop.NeedApproval) <==> asks.Some?)
            && (asks.Some? ==> delegate.messages == asks.value.messages)
  {
    ghost var cfg, start := Loop.ChatConfig(c.max), delegate.messages;
    ghost var asks := AsksAt(c, 1, turns, start, 0);
    ghost var all, seen := SentFrom(c, 1, turns, start, 0), Loop.Run(cfg, c.intent, SeenFrom(c, 1, turns), 0).0;
    if Protocol(start) { RequestsAreWellFormed(c, 1, turns, start, 0); }
    sent := [];
    var nudges := 0;
    assert turns[0..] == turns && sent + all == all;
    for i := 0 to |turns|
      invariant all == sent + SentFrom(c, 1 + i, turns[i..], delegate.messages, nudges)
      invariant seen == Loop.Run(cfg, c.intent, SeenFrom(c, 1 + i, turns[i..]), nudges).0
      invariant asks == AsksAt(c, 1 + i, turns[i..], delegate.messages, nudges)
    {
      ghost var rest, before, counter := turns[i..], delegate.messages, nudges;
      assert rest[0] == turns[i] && rest[1..] == turns[i + 1..];
      SeenTail(c, 1 + i, rest);
      RunUnfolds(c, 1 + i, rest, before, counter, sent);
      AskingIsSeen(c, 1 + i, turns[i], before, counter);
      var ended, more;
      ended, nudges, more := Iterate(c, delegate, 1 + i, turns[i], nudges);
      sent := sent + more;
      if ended.Some? {
        return ended.value, sent;
      }
    }
    assert turns[|turns|..] == [];
    result := Ok(Loop.MaxIterations);
  }

  /** One unfolding of the run, with the requests of earlier iterations in front. */
  lemma {:induction false} RunUnfolds(
    c: Setup, n: nat, turns: seq<Turn>, ms: seq<ChatMessage>, nudges: nat, sent: seq<seq<ChatMessage>>)
    requires turns != [] && forall i :: 0 <= i < |turns| ==> Sound(turns[i])
    ensures var cfg, seen := Loop.ChatConfig(c.max), Seen(c, n, turns[0]);
            var ended := Loop.IterationResult(cfg, c.intent, seen, nudges);
            var next := Loop.NextNudges(cfg, c.intent, seen, nudges);
            if ended.Some? then
              && sent + SentFrom(c, n, turns, ms, nudges) == sent + Sent(c, n, turns[0], ms)
              && Loop.Run(cfg, c.intent, SeenFrom(c, n, turns), nudges).0 == ended.value
            else
              && Final(turns[0]).Answered?
              && sent + SentFrom(c, n, turns, ms, nudges)
                 == sent + Sent(c, n, turns[0], ms) + SentFrom(c, n + 1, turns[1..], After(c, n, turns[0], ms), next)
              && Loop.Run(cfg, c.intent, SeenFrom(c, n, turns), nudges).0
                 == Loop.Run(cfg, c.intent, SeenFrom(c, n + 1, turns[1..]), next).0
  {
    SeenTail(c, n, turns);
    if Loop.IterationResult(Loop.ChatConfig(c.max), c.intent, Seen(c, n, turns[0]), nudges).None? {
      OnlyAnswersGoOn(c, n, turns[0], nudges);
    }
  }

  /** What the loop does with a reply: its result, if that ends it. */
  function Reaction(c: Setup, n: nat, reply: Reply, toolsAvailable: bool, nudges: nat): Option<Loop.LoopResult>
    requires reply.Asked? ==> |reply.env| == |reply.calls|
  {
    match reply
    case Said(text) =>
      if Nudges(c, n, toolsAvailable, text, nudges) then None else Some(Ok(Loop.Response(c.strip(text))))
    case Asked(calls, _, env) =>
      match BatchOutcome(c, calls, env)
      case Err(error) => Some(Err(error))
      case Ok(None) => None
      case Ok(Some(outcome)) => Some(Ok(outcome))
  }

  lemma {:induction false} ReactionIsSeen(c: Setup, n: nat, t: Turn, nudges: nat)
    requires Sound(t) && !t.interrupted && t.refused.None?
    ensures Final(t).Answered? ==>
              Loop.IterationResult(Loop.ChatConfig(c.max), c.intent, Seen(c, n, t), nudges)
              == Reaction(c, n, Final(t).reply, t.toolsAvailable, nudges)
    ensures !Final(t).Answered? ==>
              Loop.IterationResult(Loop.ChatConfig(c.max), c.intent, Seen(c, n, t), nudges)
              == Some(Err(if Final(t).Broken? then Final(t).error else OVERFLOW))
  {
  }

  /** One iteration: the limit note, the request with its retry, then the reply. */
  method Iterate(c: Setup, delegate: ChatDelegate, n: nat, t: Turn, counter: nat)
    returns (ended: Option<Loop.LoopResult>, nudges: nat, sent: seq<seq<ChatMessage>>)
    requires Sound(t) && delegate.services == c.services
    modifies delegate, delegate.thread
    ensures sent == Sent(c, n, t, old(delegate.messages))
    ensures ended == Loop.IterationResult(Loop.ChatConfig(c.max), c.intent, Seen(c, n, t), counter)
    ensures ended.None? ==>
              && Final(t).Answered? && delegate.messages == After(c, n, t, old(delegate.messages))
              && nudges == Loop.NextNudges(Loop.ChatConfig(c.max), c.intent, Seen(c, n, t), counter)
    ensures var asks := Asking(c, n, t, old(delegate.messages)); asks.Some? ==> delegate.messages == asks.value.messages
  {
    nudges, sent := counter, [];
    if t.interrupted {
      return Some(Ok(Loop.Stopped)), nudges, sent;
    }
    if n == NudgeAt(c) {
      delegate.messages := delegate.messages + [SystemMessage(LIMIT_NOTE)];
    }
    if t.refused.Some? {
      return Some(Err(t.refused.value)), nudges, sent;
    }
    ReactionIsSeen(c, n, t, counter);
    var request;
    request, sent := Ask(delegate, t);
    match request {
      case Overflowed => ended := Some(Err(OVERFLOW));
      case Broken(error) => ended := Some(Err(error));
      case Answered(reply) => ended, nudges := React(c, delegate, n, reply, t.toolsAvailable, counter);
    }
  }

  /** The request, and once more with a compacted conversation when it did not fit. */
  method Ask(delegate: ChatDelegate, t: Turn) returns (request: Request, sent: seq<seq<ChatMessage>>)
    modifies delegate`messages
    ensures request == Final(t)
    ensures var first := old(delegate.messages);
            && sent == (if t.request.Overflowed? then [first, Compacted(first)] else [first])
            && delegate.messages == (if t.request.Overflowed? then Compacted(first) else first)
  {
    request, sent := t.request, [delegate.messages];
    if request.Overflowed? {
      delegate.messages := CompactMessagesForRetry(delegate.messages);
      sent := sent + [delegate.messages];
      request := t.retry;
    }
  }

  method React(c: Setup, delegate: ChatDelegate, n: nat, reply: Reply, toolsAvailable: bool, counter: nat)
    returns (ended: Option<Loop.LoopResult>, nudges: nat)
    requires delegate.services == c.services && (reply.Asked? ==> |reply.env| == |reply.calls|)
    modifies delegate, delegate.thread
    ensures ended == Reaction(c, n, reply, toolsAvailable, counter)
    ensures ended.None? ==>
              && delegate.messages == Extended(c, old(delegate.messages), reply)
              && nudges == if reply.Said? then counter + 1 else 0
    ensures reply.Asked? && Suspends(c.services, reply.calls, reply.env) ==>
              var before := old(delegate.messages);
              delegate.messages
              == ToolBatches.Suspended(before, reply.calls, reply.content, c.services, reply.env).messages
  {
    nudges := counter;
    match reply {
      case Said(text) =>
        if Nudges(c, n, toolsAvailable, text, nudges) {
          delegate.messages := delegate.messages + [AssistantMessage(text), UserMessage(c.nudgeText)];
          return None, nudges + 1;
        }
        ended := Some(Ok(Loop.Response(c.strip(text))));
      case Asked(calls, content, env) =>
        nudges := 0;
        var outcome := RunBatch(c, delegate, calls, content, env);
        match outcome {
          case Err(error) => ended := Some(Err(error));
          case Ok(None) => ended := None;
          case Ok(Some(final)) => ended := Some(Ok(final));
        }
    }
  }

  method RunBatch(
    c: Setup, delegate: ChatDelegate, calls: seq<ToolCall>, content: Option<string>, env: seq<CallEnv>)
    returns (outcome: Result<Option<Loop.LoopOutcome>, string>)
    requires |env| == |calls| && delegate.services == c.services
    modifies delegate, delegate.thread
    ensures outcome == BatchOutcome(c, calls, env)
    ensures outcome == Ok(None) ==>
              delegate.messages == old(delegate.messages)
                + ([AssistantWithToolCalls(content, calls)] + AnswersInOrder(c.services, calls, env))
    ensures Suspends(c.services, calls, env) ==>
              delegate.messages
              == ToolBatches.Suspended(old(delegate.messages), calls, content, c.services, env).messages
  {
    ghost var a, before := ApprovalAt(env), delegate.messages;
    var r := delegate.ExecuteToolCalls(calls, content, env);
    match r {
      case Unwound => outcome := Err(PANIC);
      case AuthPrompt(instructions) => outcome := Ok(Some(Loop.Response(instructions)));
      case NeedApproval(_) => outcome := Ok(Some(Loop.NeedApproval));
      case Continue =>
        outcome := Ok(None);
        assert a == |calls|;
        assert calls[..a] == calls && env[..a] == env;
        Regroup(before, [AssistantWithToolCalls(content, calls)], AnswersInOrder(c.services, calls, env));
    }
  }

  lemma {:induction false} Regroup(a: seq<ChatMessage>, b: seq<ChatMessage>, d: seq<ChatMessage>)
    ensures a + b + d == a + (b + d)
  {
  }
}
