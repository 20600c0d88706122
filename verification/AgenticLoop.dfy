/** The agentic loop (src/agent/agentic_loop.rs) over an arbitrary delegate, and the chat
    delegate's limits (src/agent/dispatcher.rs). */
module AgenticLoop {
  import opened Wrappers

  datatype LoopOutcome = Response(text: string) | Stopped | MaxIterations | NeedApproval

  datatype Signal = Continue | Stop | InjectMessage(text: string)

  /** What an LLM call returns; a failed call ends the loop with its error. */
  datatype Reply = Text(text: string) | ToolCalls | CallFailed(error: string)

  /** Everything the delegate does in one iteration. `early`, `handled` and `executed` are
      the outcomes that end the loop, if any; the flags are those of the context when the
      reply is examined. */
  datatype Turn = Turn(
    signal: Signal,
    early: Option<LoopOutcome>,
    reply: Reply,
    toolsAvailable: bool,
    forceText: bool,
    handled: Option<LoopOutcome>,
    executed: Result<Option<LoopOutcome>, string>)

  datatype Config = Config(maxIterations: nat, enableNudge: bool, maxNudges: nat)

  /** What a run does, in order. */
  datatype Event =
    | Injected(text: string)
    | Called
    | Nudged(text: string)
    | Handled(text: string)
    | Executed

  type LoopResult = Result<LoopOutcome, string>

  predicate Nudges(cfg: Config, intent: string -> bool, t: Turn, nudges: nat)
    requires t.reply.Text?
  {
    cfg.enableNudge && t.toolsAvailable && !t.forceText && nudges < cfg.maxNudges && intent(t.reply.text)
  }

  function NextNudges(cfg: Config, intent: string -> bool, t: Turn, nudges: nat): nat {
    match t.reply
    case Text(text) =>
      if Nudges(cfg, intent, t, nudges) then nudges + 1 else if !intent(text) then 0 else nudges
    case _ => 0
  }

  /** What one iteration does up to and including the LLM call. */
  function Opening(t: Turn): seq<Event> {
    if t.signal.Stop? then []
    else (if t.signal.InjectMessage? then [Injected(t.signal.text)] else []) + if t.early.Some? then [] else [Called]
  }

  /** What one iteration does with the reply. */
  function Closing(cfg: Config, intent: string -> bool, t: Turn, nudges: nat): seq<Event> {
    if t.signal.Stop? || t.early.Some? then []
    else
      match t.reply
      case Text(text) => if Nudges(cfg, intent, t, nudges) then [Nudged(text)] else [Handled(text)]
      case ToolCalls => [Executed]
      case CallFailed(_) => []
  }

  function IterationEvents(cfg: Config, intent: string -> bool, t: Turn, nudges: nat): seq<Event> {
    Opening(t) + Closing(cfg, intent, t, nudges)
  }

  /** The result with which one iteration ends the loop, if it does. */
  function IterationResult(cfg: Config, intent: string -> bool, t: Turn, nudges: nat): Option<LoopResult> {
    if t.signal.Stop? then Some(Ok(Stopped))
    else if t.early.Some? then Some(Ok(t.early.value))
    else
      match t.reply
      case CallFailed(error) => Some(Err(error))
      case Text(_) =>
        if Nudges(cfg, intent, t, nudges) then None
        else if t.handled.Some? then Some(Ok(t.handled.value)) else None
      case ToolCalls =>
        match t.executed
        case Err(error) => Some(Err(error))
        case Ok(Some(outcome)) => Some(Ok(outcome))
        case Ok(None) => None
  }

  /** The run from some iteration on: its result and its events. */
  function Run(cfg: Config, intent: string -> bool, turns: seq<Turn>, nudges: nat): (LoopResult, seq<Event>)
    decreases turns
  {
    if turns == [] then (Ok(MaxIterations), [])
    else
      var events := IterationEvents(cfg, intent, turns[0], nudges);
      var result := IterationResult(cfg, intent, turns[0], nudges);
      if result.Some? then (result.value, events)
      else
        var rest := Run(cfg, intent, turns[1..], NextNudges(cfg, intent, turns[0], nudges));
        (rest.0, events + rest.1)
  }

  /** `run_agentic_loop`. */
  method RunAgenticLoop(cfg: Config, intent: string -> bool, turns: seq<Turn>)
    returns (result: LoopResult, events: seq<Event>)
    requires |turns| == cfg.maxIterations
    ensures (result, events) == Run(cfg, intent, turns, 0)
  {
    events := [];
    var nudges := 0;
    assert turns[0..] == turns;
    for iteration := 0 to cfg.maxIterations
      invariant Run(cfg, intent, turns, 0).0 == Run(cfg, intent, turns[iteration..], nudges).0
      invariant Run(cfg, intent, turns, 0).1 == events + Run(cfg, intent, turns[iteration..], nudges).1
    {
      ghost var rest := turns[iteration..];
      assert rest[0] == turns[iteration] && rest[1..] == turns[iteration + 1..];
      if IterationResult(cfg, intent, rest[0], nudges).Some? { RunStops(cfg, intent, rest, nudges); }
      else { RunGoesOn(cfg, intent, rest, nudges); }
      var ended, more;
      ended, nudges, more := RunIteration(cfg, intent, turns[iteration], nudges);
      events := events + more;
      if ended.Some? {
        return ended.value, events;
      }
    }
    assert turns[cfg.maxIterations..] == [];
    result := Ok(MaxIterations);
    var none: seq<Event> := [];
    assert events + none == events;
  }

  /** The body of the loop. */
  method RunIteration(cfg: Config, intent: string -> bool, t: Turn, counter: nat)
    returns (ended: Option<LoopResult>, nudges: nat, events: seq<Event>)
    ensures ended == IterationResult(cfg, intent, t, counter)
    ensures events == IterationEvents(cfg, intent, t, counter)
    ensures ended.None? ==> nudges == NextNudges(cfg, intent, t, counter)
  {
    events := [];
    nudges := counter;
    match t.signal {
      case Continue =>
      case Stop => return Some(Ok(Stopped)), nudges, events;
      case InjectMessage(text) => events := events + [Injected(text)];
    }
    if t.early.Some? {
      return Some(Ok(t.early.value)), nudges, events;
    }
    events := events + [Called];
    match t.reply {
      case CallFailed(error) =>
        return Some(Err(error)), nudges, events;
      case Text(text) =>
        if cfg.enableNudge && t.toolsAvailable && !t.forceText && nudges < cfg.maxNudges && intent(text) {
          return None, nudges + 1, events + [Nudged(text)];
        }
        if !intent(text) {
          nudges := 0;
        }
        events := events + [Handled(text)];
        if t.handled.Some? {
          return Some(Ok(t.handled.value)), nudges, events;
        }
      case ToolCalls =>
        nudges := 0;
        events := events + [Executed];
        match t.executed {
          case Err(error) => return Some(Err(error)), nudges, events;
          case Ok(outcome) =>
            if outcome.Some? {
              return Some(Ok(outcome.value)), nudges, events;
            }
        }
    }
    return None, nudges, events;
  }

  // ---- the iteration that ends the run ----

  /** The nudges in a row before iteration k. */
  function NudgesBefore(cfg: Config, intent: string -> bool, turns: seq<Turn>, nudges: nat, k: nat): nat
    requires k <= |turns|
    decreases k
  {
    if k == 0 then nudges
    else NudgesBefore(cfg, intent, turns[1..], NextNudges(cfg, intent, turns[0], nudges), k - 1)
  }

  /** What the first k iterations do, in order. */
  function EventsBefore(cfg: Config, intent: string -> bool, turns: seq<Turn>, nudges: nat, k: nat): seq<Event>
    requires k <= |turns|
    decreases k
  {
    if k == 0 then []
    else
      IterationEvents(cfg, intent, turns[0], nudges)
      + EventsBefore(cfg, intent, turns[1..], NextNudges(cfg, intent, turns[0], nudges), k - 1)
  }

  /** How iteration k ends the loop, if it does. */
  function EndAt(cfg: Config, intent: string -> bool, turns: seq<Turn>, nudges: nat, k: nat): Option<LoopResult>
    requires k < |turns|
  {
    IterationResult(cfg, intent, turns[k], NudgesBefore(cfg, intent, turns, nudges, k))
  }

  lemma {:induction false} EndsLater(cfg: Config, intent: string -> bool, turns: seq<Turn>, nudges: nat, k: nat)
    requires k + 1 < |turns|
    ensures EndAt(cfg, intent, turns, nudges, k + 1)
         == EndAt(cfg, intent, turns[1..], NextNudges(cfg, intent, turns[0], nudges), k)
  {
  }

  /** A run ends with the first iteration that ends the loop and has its result; without one it has
      used up its iterations. It does what these iterations do, in order, and no more. */
  lemma {:induction false} RunEndsAtTheFirst(cfg: Config, intent: string -> bool, turns: seq<Turn>, nudges: nat, k: nat)
    requires k <= |turns| && forall j :: 0 <= j < k ==> EndAt(cfg, intent, turns, nudges, j).None?
    requires k < |turns| ==> EndAt(cfg, intent, turns, nudges, k).Some?
    ensures Run(cfg, intent, turns, nudges).0
         == if k == |turns| then Ok(MaxIterations) else EndAt(cfg, intent, turns, nudges, k).value
    ensures Run(cfg, intent, turns, nudges).1
         == EventsBefore(cfg, intent, turns, nudges, if k == |turns| then k else k + 1)
    decreases |turns|
  {
    if k > 0 {
      var rest, next := turns[1..], NextNudges(cfg, intent, turns[0], nudges);
      assert EndAt(cfg, intent, turns, nudges, 0).None?;
      forall j | 0 <= j < |rest|
        ensures EndAt(cfg, intent, rest, next, j) == EndAt(cfg, intent, turns, nudges, j + 1)
      {
        EndsLater(cfg, intent, turns, nudges, j);
      }
      RunEndsAtTheFirst(cfg, intent, rest, next, k - 1);
      RunGoesOn(cfg, intent, turns, nudges);
    } else if turns != [] {
      assert EndAt(cfg, intent, turns, nudges, 0).Some?;
      RunStops(cfg, intent, turns, nudges);
      FirstEvents(cfg, intent, turns, nudges);
    }
  }

  lemma {:induction false} FirstEvents(cfg: Config, intent: string -> bool, turns: seq<Turn>, nudges: nat)
    requires turns != []
    ensures EventsBefore(cfg, intent, turns, nudges, 1) == IterationEvents(cfg, intent, turns[0], nudges)
  {
  }

  lemma {:induction false} RunGoesOn(cfg: Config, intent: string -> bool, turns: seq<Turn>, nudges: nat)
    requires turns != [] && IterationResult(cfg, intent, turns[0], nudges).None?
    ensures var rest := Run(cfg, intent, turns[1..], NextNudges(cfg, intent, turns[0], nudges));
            Run(cfg, intent, turns, nudges) == (rest.0, IterationEvents(cfg, intent, turns[0], nudges) + rest.1)
  {
  }

  lemma {:induction false} RunStops(cfg: Config, intent: string -> bool, turns: seq<Turn>, nudges: nat)
    requires turns != [] && IterationResult(cfg, intent, turns[0], nudges).Some?
    ensures Run(cfg, intent, turns, nudges)
         == (IterationResult(cfg, intent, turns[0], nudges).value, IterationEvents(cfg, intent, turns[0], nudges))
  {
  }

  // ---- nudges ----

  function CountNudges(events: seq<Event>): nat {
    if events == [] then 0 else CountNudges(events[..|events| - 1]) + if events[|events| - 1].Nudged? then 1 else 0
  }

  /** Tool calls and texts without tool intent start the nudge count anew. */
  predicate Resets(intent: string -> bool, e: Event) {
    e.Executed? || (e.Handled? && !intent(e.text))
  }

  predicate NoReset(intent: string -> bool, events: seq<Event>) {
    forall i :: 0 <= i < |events| ==> !Resets(intent, events[i])
  }

  /** The nudges since the last reset, where `start` had been given before. */
  function Level(intent: string -> bool, events: seq<Event>, start: nat): nat {
    if events == [] then start
    else
      var e := events[|events| - 1];
      if Resets(intent, e) then 0
      else Level(intent, events[..|events| - 1], start) + if e.Nudged? then 1 else 0
  }

  lemma {:induction false} LevelConcat(intent: string -> bool, a: seq<Event>, b: seq<Event>, start: nat)
    ensures Level(intent, a + b, start) == Level(intent, b, Level(intent, a, start))
  {
    if b == [] {
      assert a + b == a;
    } else {
      LevelConcat(intent, a, b[..|b| - 1], start);
      assert (a + b)[..|a + b| - 1] == a + b[..|b| - 1];
    }
  }

  lemma {:induction false} OpeningLevel(intent: string -> bool, t: Turn, start: nat, j: nat)
    requires j <= |Opening(t)|
    ensures Level(intent, Opening(t)[..j], start) == start
  {
    if j > 0 {
      OpeningLevel(intent, t, start, j - 1);
      assert Opening(t)[..j][..j - 1] == Opening(t)[..j - 1];
    }
  }

  lemma {:induction false} ClosingLevel(cfg: Config, intent: string -> bool, t: Turn, nudges: nat)
    requires nudges <= cfg.maxNudges
    ensures Level(intent, Closing(cfg, intent, t, nudges), nudges) <= cfg.maxNudges
    ensures IterationResult(cfg, intent, t, nudges).None? ==>
              && NextNudges(cfg, intent, t, nudges) <= cfg.maxNudges
              && Level(intent, Closing(cfg, intent, t, nudges), nudges) == NextNudges(cfg, intent, t, nudges)
  {
    var closing := Closing(cfg, intent, t, nudges);
    if closing != [] {
      assert closing == [closing[0]] && closing[..0] == [];
    }
  }

  /** At every point of an iteration the level stays within the limit, and at its end it is
      the loop's counter. */
  lemma {:induction false} IterationLevel(cfg: Config, intent: string -> bool, t: Turn, nudges: nat, j: nat)
    requires nudges <= cfg.maxNudges && j <= |IterationEvents(cfg, intent, t, nudges)|
    ensures Level(intent, IterationEvents(cfg, intent, t, nudges)[..j], nudges) <= cfg.maxNudges
    ensures IterationResult(cfg, intent, t, nudges).None? ==>
              && NextNudges(cfg, intent, t, nudges) <= cfg.maxNudges
              && Level(intent, IterationEvents(cfg, intent, t, nudges), nudges) == NextNudges(cfg, intent, t, nudges)
  {
    var opening, closing := Opening(t), Closing(cfg, intent, t, nudges);
    OpeningLevel(intent, t, nudges, |opening|);
    assert opening[..|opening|] == opening;
    LevelConcat(intent, opening, closing, nudges);
    ClosingLevel(cfg, intent, t, nudges);
    if j <= |opening| {
      assert (opening + closing)[..j] == opening[..j];
      OpeningLevel(intent, t, nudges, j);
    } else {
      assert (opening + closing)[..j] == opening + closing;
    }
  }

  predicate LevelsWithin(intent: string -> bool, events: seq<Event>, start: nat, max: nat) {
    forall j :: 0 <= j <= |events| ==> Level(intent, events[..j], start) <= max
  }

  lemma {:induction false} LevelsConcat(intent: string -> bool, a: seq<Event>, b: seq<Event>, start: nat, max: nat)
    requires LevelsWithin(intent, a, start, max) && LevelsWithin(intent, b, Level(intent, a, start), max)
    ensures LevelsWithin(intent, a + b, start, max)
  {
    forall j | 0 <= j <= |a + b|
      ensures Level(intent, (a + b)[..j], start) <= max
    {
      if j <= |a| {
        assert (a + b)[..j] == a[..j];
      } else {
        assert (a + b)[..j] == a + b[..j - |a|];
        LevelConcat(intent, a, b[..j - |a|], start);
      }
    }
  }

  lemma {:induction false} IterationLevels(cfg: Config, intent: string -> bool, t: Turn, nudges: nat)
    requires nudges <= cfg.maxNudges
    ensures LevelsWithin(intent, IterationEvents(cfg, intent, t, nudges), nudges, cfg.maxNudges)
    ensures IterationResult(cfg, intent, t, nudges).None? ==>
              && NextNudges(cfg, intent, t, nudges) <= cfg.maxNudges
              && Level(intent, IterationEvents(cfg, intent, t, nudges), nudges) == NextNudges(cfg, intent, t, nudges)
  {
    forall j | 0 <= j <= |IterationEvents(cfg, intent, t, nudges)|
      ensures Level(intent, IterationEvents(cfg, intent, t, nudges)[..j], nudges) <= cfg.maxNudges
    {
      IterationLevel(cfg, intent, t, nudges, j);
    }
    IterationLevel(cfg, intent, t, nudges, 0);
  }

  lemma {:induction false} RunLevels(cfg: Config, intent: string -> bool, turns: seq<Turn>, nudges: nat)
    requires nudges <= cfg.maxNudges
    ensures LevelsWithin(intent, Run(cfg, intent, turns, nudges).1, nudges, cfg.maxNudges)
    decreases turns
  {
    if turns != [] {
      IterationLevels(cfg, intent, turns[0], nudges);
      if IterationResult(cfg, intent, turns[0], nudges).None? {
        var next := NextNudges(cfg, intent, turns[0], nudges);
        RunLevels(cfg, intent, turns[1..], next);
        var events, rest := IterationEvents(cfg, intent, turns[0], nudges), Run(cfg, intent, turns[1..], next).1;
        LevelsConcat(intent, events, rest, nudges, cfg.maxNudges);
      }
    }
  }

  lemma {:induction false} StretchBelowLevel(intent: string -> bool, events: seq<Event>, i: nat, j: nat, start: nat)
    requires i <= j <= |events| && NoReset(intent, events[i..j])
    ensures CountNudges(events[i..j]) <= Level(intent, events[..j], start)
  {
    if i < j {
      assert events[..j][..j - 1] == events[..j - 1];
      assert events[i..j][..j - i - 1] == events[i..j - 1];
      assert events[i..j][j - i - 1] == events[j - 1];
      StretchBelowLevel(intent, events, i, j - 1, start);
    }
  }

  /** For any delegate: a stretch of a run without tool calls and without texts that lack
      tool intent contains at most `maxNudges` nudges. */
  lemma {:induction false} NudgesAreBounded(cfg: Config, intent: string -> bool, turns: seq<Turn>, i: nat, j: nat)
    requires i <= j <= |Run(cfg, intent, turns, 0).1|
    requires NoReset(intent, Run(cfg, intent, turns, 0).1[i..j])
    ensures CountNudges(Run(cfg, intent, turns, 0).1[i..j]) <= cfg.maxNudges
  {
    StretchBelowLevel(intent, Run(cfg, intent, turns, 0).1, i, j, 0);
    RunLevels(cfg, intent, turns, 0);
  }

  // ---- calls ----

  function CountCalls(events: seq<Event>): nat {
    if events == [] then 0 else (if events[0].Called? then 1 else 0) + CountCalls(events[1..])
  }

  lemma {:induction false} CountCallsConcat(a: seq<Event>, b: seq<Event>)
    ensures CountCalls(a + b) == CountCalls(a) + CountCalls(b)
  {
    if a == [] {
      assert a + b == b;
    } else {
      CountCallsConcat(a[1..], b);
      assert (a + b)[1..] == a[1..] + b;
    }
  }

  lemma {:induction false} OneCall(cfg: Config, intent: string -> bool, t: Turn, nudges: nat)
    ensures CountCalls(IterationEvents(cfg, intent, t, nudges)) <= 1
  {
    var injected := if t.signal.InjectMessage? then [Injected(t.signal.text)] else [];
    CountCallsConcat(Opening(t), Closing(cfg, intent, t, nudges));
    CountCallsConcat(injected, if t.early.Some? then [] else [Called]);
  }

  /** Any run calls the LLM at most once an iteration. */
  lemma {:induction false} CallsAreBounded(cfg: Config, intent: string -> bool, turns: seq<Turn>, nudges: nat)
    ensures CountCalls(Run(cfg, intent, turns, nudges).1) <= |turns|
    decreases turns
  {
    if turns != [] {
      OneCall(cfg, intent, turns[0], nudges);
      if IterationResult(cfg, intent, turns[0], nudges).None? {
        var next := NextNudges(cfg, intent, turns[0], nudges);
        CallsAreBounded(cfg, intent, turns[1..], next);
        CountCallsConcat(IterationEvents(cfg, intent, turns[0], nudges), Run(cfg, intent, turns[1..], next).1);
      }
    }
  }

  // ---- the chat delegate ----

  function ChatConfig(maxToolIterations: nat): Config { Config(maxToolIterations + 1, true, 2) }

  /** The chat delegate in its n-th iteration, counted from 1: it never injects messages or
      stops before the call, forces text from iteration `maxToolIterations` on, and returns
      every text it is handed. LLM, tools and hooks are arbitrary. */
  predicate ChatTurn(maxToolIterations: nat, n: nat, t: Turn) {
    && !t.signal.InjectMessage?
    && t.early.None?
    && t.forceText == (n >= maxToolIterations)
    && t.handled.Some? && t.handled.value.Response?
    && (t.executed.Ok? && t.executed.value.Some? ==>
          t.executed.value.value.Response? || t.executed.value.value.NeedApproval?)
  }

  predicate ChatTurns(maxToolIterations: nat, n: nat, turns: seq<Turn>) {
    forall i :: 0 <= i < |turns| ==> ChatTurn(maxToolIterations, n + i, turns[i])
  }

  /** The LLM answers without tool calls whenever text is forced. */
  predicate Obeys(turns: seq<Turn>) {
    forall i :: 0 <= i < |turns| ==> turns[i].forceText ==> !turns[i].reply.ToolCalls?
  }

  lemma {:induction false} ChatRunEnds(max: nat, intent: string -> bool, turns: seq<Turn>, n: nat, nudges: nat)
    requires ChatTurns(max, n, turns) && Obeys(turns) && 1 <= n && n + |turns| == max + 2
    requires n <= (if max == 0 then 1 else max)
    ensures var r := Run(ChatConfig(max), intent, turns, nudges);
            r.0 != Ok(MaxIterations) && CountCalls(r.1) + n <= (if max == 0 then 1 else max) + 1
    decreases turns
  {
    var cfg, t := ChatConfig(max), turns[0];
    OneCall(cfg, intent, t, nudges);
    if IterationResult(cfg, intent, t, nudges).None? {
      assert n < max;
      var next := NextNudges(cfg, intent, t, nudges);
      ChatRunEnds(max, intent, turns[1..], n + 1, next);
      CountCallsConcat(IterationEvents(cfg, intent, t, nudges), Run(cfg, intent, turns[1..], next).1);
    }
  }

  /** The chat loop never runs out of iterations and calls the LLM at most
      max(1, maxToolIterations) times, whatever tools, hooks and nudges do, provided the
      LLM answers without tool calls when text is forced. */
  lemma {:induction false} ChatLoopTerminates(max: nat, intent: string -> bool, turns: seq<Turn>)
    requires |turns| == ChatConfig(max).maxIterations && ChatTurns(max, 1, turns) && Obeys(turns)
    ensures var r := Run(ChatConfig(max), intent, turns, 0);
            && r.0 != Ok(MaxIterations)
            && CountCalls(r.1) <= (if max == 0 then 1 else max)
  {
    ChatRunEnds(max, intent, turns, 1, 0);
  }

  /** Without that proviso the loop can run out of iterations, but only when the LLM calls
      tools in every forced iteration, although none should be offered there. */
  lemma {:induction false} ChatLoopExhausted(max: nat, intent: string -> bool, turns: seq<Turn>, n: nat, nudges: nat)
    requires ChatTurns(max, n, turns) && Run(ChatConfig(max), intent, turns, nudges).0 == Ok(MaxIterations)
    ensures forall i :: 0 <= i < |turns| && turns[i].forceText ==>
              turns[i].reply.ToolCalls? && turns[i].executed == Ok(None)
    decreases turns
  {
    if turns != [] {
      ChatLoopExhausted(max, intent, turns[1..], n + 1, NextNudges(ChatConfig(max), intent, turns[0], nudges));
      forall i | 0 <= i < |turns| && turns[i].forceText
        ensures turns[i].reply.ToolCalls? && turns[i].executed == Ok(None)
      {
        if i > 0 { assert turns[i] == turns[1..][i - 1]; }
      }
    }
  }

  /** A run that does: tools are called in every iteration and none of them ends the loop. */
  lemma {:induction false} AlwaysCallingExhausts(max: nat, intent: string -> bool, turns: seq<Turn>, nudges: nat)
    requires forall i :: 0 <= i < |turns| ==>
               && turns[i].signal.Continue? && turns[i].early.None?
               && turns[i].reply.ToolCalls? && turns[i].executed == Ok(None)
    ensures var r := Run(ChatConfig(max), intent, turns, nudges);
            r.0 == Ok(MaxIterations) && CountCalls(r.1) == |turns|
    decreases turns
  {
    if turns != [] {
      var t := turns[0];
      AlwaysCallingExhausts(max, intent, turns[1..], 0);
      var events := IterationEvents(ChatConfig(max), intent, t, nudges);
      assert events == [Called, Executed] && events[1..] == [Executed] && events[1..][1..] == [];
      CountCallsConcat(events, Run(ChatConfig(max), intent, turns[1..], 0).1);
    }
  }
}
