/** Context compaction (src/agent/compaction.rs) and the token estimate it reports
    (src/agent/context_monitor.rs). */
module Compaction {
  import opened Wrappers
  import opened Chat
  import opened Threads
  import opened CallIds
  import opened Whitespace
  import opened Lists
  import ThreadPrinting

  // ---- token estimates ----

  /** Words are maximal runs of non-whitespace. */
  function WordCount(s: string): nat {
    if s == "" then 0
    else
      var starts := !IsWhitespace(s[|s| - 1]) && (|s| == 1 || IsWhitespace(s[|s| - 2]));
      WordCount(s[..|s| - 1]) + if starts then 1 else 0
  }

  /** 1.3 tokens a word, rounded down, and 4 for role and structure. */
  function MessageTokens(m: ChatMessage): nat { WordCount(m.content) * 13 / 10 + 4 }

  predicate NoSpaces(s: string) {
    forall i :: 0 <= i < |s| ==> !IsWhitespace(s[i])
  }

  /** A text without whitespace is one word, if it is not empty. */
  lemma {:induction false} OneWord(s: string)
    requires NoSpaces(s)
    ensures WordCount(s) == if s == "" then 0 else 1
  {
    if |s| > 1 { OneWord(s[..|s| - 1]); }
    else if |s| == 1 { assert s[..0] == ""; }
  }

  /** Whitespace separates: the words of both sides are counted. */
  lemma {:induction false} WordsAddUp(a: string, space: char, b: string)
    requires IsWhitespace(space)
    ensures WordCount(a + [space] + b) == WordCount(a) + WordCount(b)
    decreases |b|
  {
    var s := a + [space] + b;
    if b == "" {
      assert s[..|s| - 1] == a;
    } else {
      WordsAddUp(a, space, b[..|b| - 1]);
      assert s[..|s| - 1] == a + [space] + b[..|b| - 1];
      assert s[|s| - 1] == b[|b| - 1];
      if |b| == 1 { assert s[|s| - 2] == space; }
      else { assert s[|s| - 2] == b[|b| - 2]; }
    }
  }

  /** The estimate is 4 and thirteen tenths of the words, rounded down. */
  lemma {:induction false} EstimateIsExact(m: ChatMessage, words: nat)
    requires words == WordCount(m.content)
    ensures var t := MessageTokens(m); t >= 4 && 10 * (t - 4) <= 13 * words < 10 * (t - 4) + 10
  {
  }

  function TokenSum(ms: seq<ChatMessage>): nat {
    if ms == [] then 0 else MessageTokens(ms[0]) + TokenSum(ms[1..])
  }

  function RoleSum(ms: seq<ChatMessage>, role: Role): nat {
    if ms == [] then 0 else (if ms[0].role == role then MessageTokens(ms[0]) else 0) + RoleSum(ms[1..], role)
  }

  /** A message counts for its own role, and lists add up. */
  lemma {:induction false} RoleSumOfOne(m: ChatMessage, role: Role)
    ensures RoleSum([m], role) == if m.role == role then MessageTokens(m) else 0
  {
    assert [m][1..] == [];
  }

  lemma {:induction false} RoleSumAdds(a: seq<ChatMessage>, b: seq<ChatMessage>, role: Role)
    ensures RoleSum(a + b, role) == RoleSum(a, role) + RoleSum(b, role)
  {
    if a == [] {
      assert a + b == b;
    } else {
      RoleSumAdds(a[1..], b, role);
      assert (a + b)[0] == a[0] && (a + b)[1..] == a[1..] + b;
    }
  }

  datatype Breakdown = Breakdown(
    total: nat, system: nat, user: nat, assistant: nat, tool: nat, messageCount: nat)

  /** `ContextBreakdown::analyze`: the total is the sum over all messages and splits
      exactly into the four roles. */
  method Analyze(ms: seq<ChatMessage>) returns (b: Breakdown)
    ensures b.total == TokenSum(ms) && b.messageCount == |ms|
    ensures b.total == b.system + b.user + b.assistant + b.tool
    ensures b.system == RoleSum(ms, System) && b.user == RoleSum(ms, User)
    ensures b.assistant == RoleSum(ms, Assistant) && b.tool == RoleSum(ms, Tool)
  {
    b := Breakdown(0, 0, 0, 0, 0, |ms|);
    var i := 0;
    while i < |ms|
      invariant 0 <= i <= |ms| && b.messageCount == |ms|
      invariant b.total == b.system + b.user + b.assistant + b.tool
      invariant b.total + TokenSum(ms[i..]) == TokenSum(ms)
      invariant b.system + RoleSum(ms[i..], System) == RoleSum(ms, System)
      invariant b.user + RoleSum(ms[i..], User) == RoleSum(ms, User)
      invariant b.assistant + RoleSum(ms[i..], Assistant) == RoleSum(ms, Assistant)
      invariant b.tool + RoleSum(ms[i..], Tool) == RoleSum(ms, Tool)
    {
      var tokens := MessageTokens(ms[i]);
      assert ms[i..][1..] == ms[i + 1..];
      b := b.(total := b.total + tokens);
      match ms[i].role {
        case System => b := b.(system := b.system + tokens);
        case User => b := b.(user := b.user + tokens);
        case Assistant => b := b.(assistant := b.assistant + tokens);
        case Tool => b := b.(tool := b.tool + tokens);
      }
      i := i + 1;
    }
  }

  // ---- compaction ----

  datatype Strategy = Summarize(keepRecent: nat) | Truncate(keepRecent: nat) | MoveToWorkspace

  /** A workspace whose next write succeeds or fails, or none. */
  datatype Workspace = NoWorkspace | Workspace(writes: bool)

  datatype CompactionResult = CompactionResult(
    turnsRemoved: nat, tokensBefore: nat, tokensAfter: nat, summaryWritten: bool, summary: Option<string>)

  datatype Partial = Partial(turnsRemoved: nat, summaryWritten: bool, summary: Option<string>)

  const FALLBACK_KEEP: nat := 5
  const WORKSPACE_KEEP: nat := 10

  /** How many recent turns a strategy keeps. */
  function KeepOf(strategy: Strategy, ws: Workspace): nat {
    match strategy
    case Summarize(keep) => keep
    case Truncate(keep) => keep
    case MoveToWorkspace => if ws.NoWorkspace? then FALLBACK_KEEP else WORKSPACE_KEEP
  }

  /** Archiving strategies with a workspace drop turns only after the write succeeded. */
  predicate WriteFails(strategy: Strategy, ws: Workspace) {
    !strategy.Truncate? && ws == Workspace(false)
  }

  method CompactTruncate(thread: Thread, keepRecent: nat) returns (p: Partial)
    modifies thread
    ensures thread.turns == Truncated(old(thread.turns), keepRecent) && thread.state == old(thread.state)
    ensures p == Partial(|old(thread.turns)| - |thread.turns|, false, None)
  {
    var before := |thread.turns|;
    thread.TruncateTurns(keepRecent);
    p := Partial(before - |thread.turns|, false, None);
  }

  /** `llm` is the outcome of the summary request. */
  method CompactWithSummary(thread: Thread, keepRecent: nat, ws: Workspace, llm: Result<string, string>)
    returns (r: Result<Partial, string>)
    modifies thread
    ensures thread.state == old(thread.state)
    ensures |old(thread.turns)| <= keepRecent ==>
              thread.turns == old(thread.turns) && r == Ok(Partial(0, false, None))
    ensures |old(thread.turns)| > keepRecent && llm.Err? ==>
              thread.turns == old(thread.turns) && r == Err(llm.error)
    ensures |old(thread.turns)| > keepRecent && llm.Ok? ==>
              && thread.turns == (if ws == Workspace(false) then old(thread.turns)
                                  else Truncated(old(thread.turns), keepRecent))
              && r == Ok(Partial(|old(thread.turns)| - |thread.turns|, ws == Workspace(true), Some(llm.value)))
  {
    if |thread.turns| <= keepRecent {
      return Ok(Partial(0, false, None));
    }
    var toRemove := |thread.turns| - keepRecent;
    if llm.Err? {
      return Err(llm.error);
    }
    match ws {
      case Workspace(true) =>
        thread.TruncateTurns(keepRecent);
        return Ok(Partial(toRemove, true, Some(llm.value)));
      case Workspace(false) =>
        return Ok(Partial(0, false, Some(llm.value)));
      case NoWorkspace =>
        thread.TruncateTurns(keepRecent);
        return Ok(Partial(toRemove, false, Some(llm.value)));
    }
  }

  method CompactToWorkspace(thread: Thread, ws: Workspace) returns (p: Partial)
    modifies thread
    ensures thread.state == old(thread.state)
    ensures thread.turns == if ws == Workspace(false) then old(thread.turns)
                            else Truncated(old(thread.turns), KeepOf(MoveToWorkspace, ws))
    ensures p == Partial(|old(thread.turns)| - |thread.turns|,
                         ws == Workspace(true) && |old(thread.turns)| > WORKSPACE_KEEP, None)
  {
    if ws.NoWorkspace? {
      p := CompactTruncate(thread, FALLBACK_KEEP);
      return;
    }
    if |thread.turns| <= WORKSPACE_KEEP {
      return Partial(0, false, None);
    }
    var toRemove := |thread.turns| - WORKSPACE_KEEP;
    if ws.writes {
      thread.TruncateTurns(WORKSPACE_KEEP);
      return Partial(toRemove, true, None);
    } else {
      return Partial(0, false, None);
    }
  }

  /** The strategies of `compact`: what remains is the most recent turns, or everything when the
      summary or the write failed. */
  method CompactBy(thread: Thread, strategy: Strategy, ws: Workspace, llm: Result<string, string>)
    returns (r: Result<Partial, string>)
    modifies thread
    ensures thread.state == old(thread.state)
    ensures r.Err? <==> strategy.Summarize? && |old(thread.turns)| > strategy.keepRecent && llm.Err?
    ensures r.Err? ==> r.error == llm.error
    ensures thread.turns == if r.Err? || WriteFails(strategy, ws) then old(thread.turns)
                            else Truncated(old(thread.turns), KeepOf(strategy, ws))
    ensures r.Ok? ==>
              && r.value.turnsRemoved == |old(thread.turns)| - |thread.turns|
              && (r.value.summaryWritten <==>
                    !strategy.Truncate? && ws == Workspace(true) && r.value.turnsRemoved > 0)
              && r.value.summary == (if strategy.Summarize? && |old(thread.turns)| > strategy.keepRecent
                                     then Some(llm.value) else None)
  {
    match strategy {
      case Summarize(keep) =>
        r := CompactWithSummary(thread, keep, ws, llm);
      case Truncate(keep) =>
        var p := CompactTruncate(thread, keep);
        r := Ok(p);
      case MoveToWorkspace =>
        var p := CompactToWorkspace(thread, ws);
        r := Ok(p);
    }
  }

  /** `compact`: the removed turns and their tokens are accounted for exactly. */
  method Compact(thread: Thread, strategy: Strategy, ws: Workspace, llm: Result<string, string>)
    returns (r: Result<CompactionResult, string>)
    modifies thread
    ensures thread.state == old(thread.state)
    ensures r.Err? <==> strategy.Summarize? && |old(thread.turns)| > strategy.keepRecent && llm.Err?
    ensures r.Err? ==> r.error == llm.error
    ensures thread.turns == if r.Err? || WriteFails(strategy, ws) then old(thread.turns)
                            else Truncated(old(thread.turns), KeepOf(strategy, ws))
    ensures r.Ok? ==>
              && r.value.turnsRemoved == |old(thread.turns)| - |thread.turns|
              && r.value.tokensBefore == TokenSum(Print(old(thread.turns)))
              && r.value.tokensAfter == TokenSum(Print(thread.turns))
              && r.value.tokensBefore == r.value.tokensAfter
                   + TokenSum(Print(old(thread.turns)[..r.value.turnsRemoved]))
              && (r.value.summaryWritten <==>
                    !strategy.Truncate? && ws == Workspace(true) && r.value.turnsRemoved > 0)
              && r.value.summary == (if strategy.Summarize? && |old(thread.turns)| > strategy.keepRecent
                                     then Some(llm.value) else None)
    ensures r.Ok? && strategy.MoveToWorkspace? && ws != Workspace(false) ==>
              var kept := if ws == NoWorkspace then 5 else 10;
              |thread.turns| == if |old(thread.turns)| < kept then |old(thread.turns)| else kept
  {
    ghost var turns := thread.turns;
    var messages := thread.Messages();
    var before := Analyze(messages);
    var p := CompactBy(thread, strategy, ws, llm);
    if p.Err? {
      return Err(p.error);
    }
    var messagesAfter := thread.Messages();
    var after := Analyze(messagesAfter);
    TokensDropped(turns, thread.turns, p.value.turnsRemoved, KeepOf(strategy, ws));
    return Ok(CompactionResult(
      p.value.turnsRemoved, before.total, after.total, p.value.summaryWritten, p.value.summary));
  }

  // ---- what truncation does to the printed thread ----

  /** Exactly the last min(keep, n) turns survive, in order, renumbered from 0. */
  lemma {:induction false} KeepsMostRecent(turns: seq<Turn>, keep: nat)
    ensures var after := Truncated(turns, keep);
            && |after| == (if keep < |turns| then keep else |turns|)
            && (Numbered(turns) ==> Numbered(after))
            && SameButNumbers(after, turns[|turns| - |after|..])
  {
  }

  /** Compacting twice is compacting once to the smaller count. */
  lemma {:induction false} CompactTwice(turns: seq<Turn>, a: nat, b: nat)
    ensures Truncated(Truncated(turns, a), b) == Truncated(turns, if a < b then a else b)
  {
  }

  function EraseId(m: ChatMessage): ChatMessage {
    m.(toolCallId := None,
       toolCalls := if m.toolCalls.None? then None
                    else Some(seq(|m.toolCalls.value|, i requires 0 <= i < |m.toolCalls.value| =>
                                    m.toolCalls.value[i].(id := ""))))
  }

  /** A message list up to the ids of its tool calls. */
  function EraseIds(ms: seq<ChatMessage>): seq<ChatMessage> {
    seq(|ms|, i requires 0 <= i < |ms| => EraseId(ms[i]))
  }

  lemma {:induction false} EraseConcat(a: seq<ChatMessage>, b: seq<ChatMessage>)
    ensures EraseIds(a + b) == EraseIds(a) + EraseIds(b)
  {
  }

  lemma {:induction false} RenumberedCalls(t: Turn, n: nat)
    ensures EraseIds(PrintCalls(t.(turnNumber := n))) == EraseIds(PrintCalls(t))
  {
    if t.toolCalls != [] {
      var u := t.(turnNumber := n);
      var a, b := AssistantWithToolCalls(None, Declared(n, u.toolCalls)),
                  AssistantWithToolCalls(None, Declared(t.turnNumber, t.toolCalls));
      assert EraseId(a).toolCalls.value == EraseId(b).toolCalls.value;
      EraseConcat([a], Results(n, u.toolCalls));
      EraseConcat([b], Results(t.turnNumber, t.toolCalls));
      assert EraseIds(Results(n, u.toolCalls)) == EraseIds(Results(t.turnNumber, t.toolCalls));
    }
  }

  lemma {:induction false} RenumberedTurn(t: Turn, n: nat)
    ensures EraseIds(PrintTurn(t.(turnNumber := n))) == EraseIds(PrintTurn(t))
  {
    var u := t.(turnNumber := n);
    RenumberedCalls(t, n);
    EraseConcat(PrintCalls(u), PrintResponse(u));
    EraseConcat(PrintCalls(t), PrintResponse(t));
    EraseConcat([UserMessage(u.userInput)], PrintCalls(u) + PrintResponse(u));
    EraseConcat([UserMessage(t.userInput)], PrintCalls(t) + PrintResponse(t));
  }

  predicate SameButNumbers(a: seq<Turn>, b: seq<Turn>) {
    |a| == |b| && forall i :: 0 <= i < |a| ==> a[i] == b[i].(turnNumber := a[i].turnNumber)
  }

  lemma {:induction false} RenumberedPrint(a: seq<Turn>, b: seq<Turn>)
    requires SameButNumbers(a, b)
    ensures EraseIds(Print(a)) == EraseIds(Print(b))
  {
    if a != [] {
      RenumberedTurn(b[0], a[0].turnNumber);
      RenumberedPrint(a[1..], b[1..]);
      EraseConcat(PrintTurn(a[0]), Print(a[1..]));
      EraseConcat(PrintTurn(b[0]), Print(b[1..]));
    }
  }

  lemma {:induction false} PrintConcat(a: seq<Turn>, b: seq<Turn>)
    ensures Print(a + b) == Print(a) + Print(b)
  {
    ThreadPrinting.PrintIsFlatMap(a);
    ThreadPrinting.PrintIsFlatMap(b);
    ThreadPrinting.PrintIsFlatMap(a + b);
    FlatMapConcat(a, b, PrintTurn);
  }

  /** A printed thread splits where its turns split. */
  lemma {:induction false} PrintSplits(turns: seq<Turn>, cut: nat)
    requires cut <= |turns|
    ensures Print(turns) == Print(turns[..cut]) + Print(turns[cut..])
    ensures |Print(turns[..cut])| <= |Print(turns)|
    ensures Print(turns)[|Print(turns[..cut])|..] == Print(turns[cut..])
  {
    assert turns == turns[..cut] + turns[cut..];
    PrintConcat(turns[..cut], turns[cut..]);
  }

  /** The printed messages after truncation are, up to the ids of tool calls, exactly the
      printed messages before without those of the dropped turns. */
  lemma {:induction false} TruncatedPrintIsSuffix(turns: seq<Turn>, keep: nat)
    ensures var after := Truncated(turns, keep);
            var dropped := Print(turns[..|turns| - |after|]);
            && |dropped| <= |Print(turns)|
            && EraseIds(Print(after)) == EraseIds(Print(turns)[|dropped|..])
  {
    var after := Truncated(turns, keep);
    var cut := |turns| - |after|;
    PrintSplits(turns, cut);
    assert SameButNumbers(after, turns[cut..]);
    RenumberedPrint(after, turns[cut..]);
  }

  lemma {:induction false} TokensIgnoreIds(a: seq<ChatMessage>, b: seq<ChatMessage>)
    requires EraseIds(a) == EraseIds(b)
    ensures TokenSum(a) == TokenSum(b)
  {
    assert |a| == |EraseIds(a)| && |b| == |EraseIds(b)|;
    if a != [] {
      assert EraseIds(a)[0] == EraseId(a[0]) && EraseIds(b)[0] == EraseId(b[0]);
      assert EraseIds(a[1..]) == EraseIds(a)[1..] && EraseIds(b[1..]) == EraseIds(b)[1..];
      TokensIgnoreIds(a[1..], b[1..]);
    }
  }

  lemma {:induction false} TokenSumConcat(a: seq<ChatMessage>, b: seq<ChatMessage>)
    ensures TokenSum(a + b) == TokenSum(a) + TokenSum(b)
  {
    if a == [] {
      assert a + b == b;
    } else {
      TokenSumConcat(a[1..], b);
      assert (a + b)[1..] == a[1..] + b;
    }
  }

  /** The tokens saved are exactly those of the dropped messages. */
  lemma {:induction false} TokensDropped(turns: seq<Turn>, after: seq<Turn>, removed: nat, keep: nat)
    requires after == turns || after == Truncated(turns, keep)
    requires removed == |turns| - |after|
    ensures TokenSum(Print(turns)) == TokenSum(Print(after)) + TokenSum(Print(turns[..removed]))
  {
    if after == turns {
      assert turns[..0] == [];
    } else {
      TruncatedPrintIsSuffix(turns, keep);
      PrintSplits(turns, removed);
      TokensIgnoreIds(Print(after), Print(turns[removed..]));
      TokenSumConcat(Print(turns[..removed]), Print(turns[removed..]));
    }
  }
}
