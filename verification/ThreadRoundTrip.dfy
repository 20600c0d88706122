/** Printing and parsing threads: what survives the round trip, when it is exact, and what
    every sequence of mutations keeps. */
module ThreadRoundTrip {
  import opened Wrappers
  import opened Chat
  import opened CallIds
  import opened Preview
  import opened Threads

  // ---- parsing any list ----

  /** The texts of the user messages, in order. */
  function Inputs(ms: seq<ChatMessage>): seq<string> {
    if ms == [] then [] else (if ms[0].role == User then [ms[0].content] else []) + Inputs(ms[1..])
  }

  function TurnInputs(turns: seq<Turn>): seq<string> {
    seq(|turns|, i requires 0 <= i < |turns| => turns[i].userInput)
  }

  lemma {:induction false} NoInputs(ms: seq<ChatMessage>, n: nat)
    requires n <= |ms| && forall i :: 0 <= i < n ==> ms[i].role != User
    ensures Inputs(ms) == Inputs(ms[n..])
  {
    if n > 0 {
      NoInputs(ms[1..], n - 1);
      assert ms[1..][n - 1..] == ms[n..];
    }
  }

  lemma {:induction false} ToolRunIsTools(ms: seq<ChatMessage>)
    ensures forall i :: 0 <= i < ToolRun(ms) ==> ms[i].role == Tool
    ensures ToolRun(ms) < |ms| ==> ms[ToolRun(ms)].role != Tool
  {
    if ms != [] && ms[0].role == Tool { ToolRunIsTools(ms[1..]); }
  }

  lemma {:induction false} RoundsKeepInputs(ms: seq<ChatMessage>, calls: seq<TurnToolCall>)
    ensures Inputs(ParseRounds(ms, calls).1) == Inputs(ms)
    decreases |ms|
  {
    if ms != [] && DeclaresCalls(ms[0]) {
      var n := 1 + ToolRun(ms[1..]);
      ToolRunIsTools(ms[1..]);
      RoundsKeepInputs(ms[n..], Fill(calls + FreshCalls(ms[0].toolCalls.value), |calls|, ms[1..n]));
      NoInputs(ms, n);
    }
  }

  lemma {:induction false} InputsOfTurns(turn: Turn, more: seq<Turn>)
    ensures TurnInputs([turn] + more) == [turn.userInput] + TurnInputs(more)
  {
  }

  /** Every user message of any list becomes one turn, in order. */
  lemma {:induction false} EveryInputBecomesATurn(ms: seq<ChatMessage>, number: nat)
    ensures TurnInputs(Parse(ms, number)) == Inputs(ms)
    decreases |ms|
  {
    if ms != [] {
      if ms[0].role == User {
        var turn, rest := ParseTurn(ms, number).0, ParseTurn(ms, number).1;
        RoundsKeepInputs(ms[1..], []);
        EveryInputBecomesATurn(rest, number + 1);
        InputsOfTurns(turn, Parse(rest, number + 1));
      } else {
        EveryInputBecomesATurn(ms[1..], number);
      }
    }
  }

  /** Declared calls with the results that follow: one each in order, none for those that lack one. */
  function Answered(calls: seq<ToolCall>, results: seq<ChatMessage>): seq<TurnToolCall> {
    seq(|calls|, i requires 0 <= i < |calls| =>
          TurnToolCall(calls[i].name, calls[i].arguments,
                       if i < |results| then Some(Text(results[i].content)) else None, None))
  }

  lemma {:induction false} RoundSlices(head: ChatMessage, results: seq<ChatMessage>, tail: seq<ChatMessage>)
    ensures var ms, n := [head] + results + tail, 1 + |results|;
            ms[0] == head && ms[1..] == results + tail && ms[1..n] == results && ms[n..] == tail
  {
  }

  /** A round of any list adds its calls with their own results, whatever rounds came before. */
  lemma {:induction false} RoundIsParsed(
    calls: seq<TurnToolCall>, head: ChatMessage, results: seq<ChatMessage>, tail: seq<ChatMessage>)
    requires DeclaresCalls(head) && forall i :: 0 <= i < |results| ==> results[i].role == Tool
    requires tail != [] ==> tail[0].role != Tool
    ensures ParseRounds([head] + results + tail, calls)
         == ParseRounds(tail, calls + Answered(head.toolCalls.value, results))
  {
    var ms := [head] + results + tail;
    RoundSlices(head, results, tail);
    ToolRunStops(results, tail);
    FillAt(calls + FreshCalls(head.toolCalls.value), |calls|, results);
    assert Fill(calls + FreshCalls(head.toolCalls.value), |calls|, results)
        == calls + Answered(head.toolCalls.value, results);
  }

  /** The end of a turn: its rounds stop at the first message that declares nothing, which is its
      response when it is the assistant's; and a message in front of all user messages is skipped. */
  lemma {:induction false} TurnIsParsed(user: ChatMessage, rest: seq<ChatMessage>, number: nat)
    requires user.role == User
    ensures var (calls, after) := ParseRounds(rest, []);
            && (after != [] ==> !DeclaresCalls(after[0]))
            && var responds := after != [] && after[0].role == Assistant;
               Parse([user] + rest, number)
               == [Turn(number, user.content, if responds then Some(after[0].content) else None, calls,
                        if responds then Completed else InProgress, None)]
                  + Parse(if responds then after[1..] else after, number + 1)
  {
    assert ([user] + rest)[1..] == rest;
    RoundsStop(rest, []);
  }

  lemma {:induction false} RoundsStop(ms: seq<ChatMessage>, calls: seq<TurnToolCall>)
    ensures var (all, after) := ParseRounds(ms, calls); after != [] ==> !DeclaresCalls(after[0])
    decreases |ms|
  {
    if ms != [] && DeclaresCalls(ms[0]) {
      var n := 1 + ToolRun(ms[1..]);
      RoundsStop(ms[n..], Fill(calls + FreshCalls(ms[0].toolCalls.value), |calls|, ms[1..n]));
    }
  }

  // ---- parsing what was printed ----

  /** A call as it comes back: its printed content is its result, errors are forgotten. */
  function NormalCall(c: TurnToolCall): TurnToolCall {
    TurnToolCall(c.name, c.parameters, Some(Text(CallContent(c))), None)
  }

  function NormalCalls(calls: seq<TurnToolCall>): seq<TurnToolCall> {
    seq(|calls|, i requires 0 <= i < |calls| => NormalCall(calls[i]))
  }

  function NormalTurn(t: Turn, number: nat): Turn {
    Turn(number, t.userInput, t.response, NormalCalls(t.toolCalls),
         if t.response.Some? then Completed else InProgress, None)
  }

  function Normal(turns: seq<Turn>, number: nat): seq<Turn> {
    seq(|turns|, i requires 0 <= i < |turns| => NormalTurn(turns[i], number + i))
  }

  lemma {:induction false} ToolRunStops(results: seq<ChatMessage>, tail: seq<ChatMessage>)
    requires forall i :: 0 <= i < |results| ==> results[i].role == Tool
    requires tail != [] ==> tail[0].role != Tool
    ensures ToolRun(results + tail) == |results|
  {
    if results == [] {
      assert results + tail == tail;
    } else {
      ToolRunStops(results[1..], tail);
      assert (results + tail)[1..] == results[1..] + tail;
    }
  }

  /** What filling writes at each position. */
  lemma {:induction false} FillAt(calls: seq<TurnToolCall>, at: nat, results: seq<ChatMessage>)
    ensures var f := Fill(calls, at, results);
            && |f| == |calls|
            && forall i :: 0 <= i < |calls| ==>
                 f[i] == if at <= i < at + |results|
                         then calls[i].(result := Some(Text(results[i - at].content))) else calls[i]
    decreases results
  {
    if results != [] {
      var filled := if at < |calls| then calls[at := calls[at].(result := Some(Text(results[0].content)))] else calls;
      FillAt(filled, at + 1, results[1..]);
    }
  }

  lemma {:induction false} FillPrinted(number: nat, calls: seq<TurnToolCall>)
    ensures Fill(FreshCalls(Declared(number, calls)), 0, Results(number, calls)) == NormalCalls(calls)
  {
    FillAt(FreshCalls(Declared(number, calls)), 0, Results(number, calls));
  }

  /** One round of declared calls with its results, then anything else. */
  lemma {:induction false} ParseOneRound(head: ChatMessage, results: seq<ChatMessage>, tail: seq<ChatMessage>)
    requires DeclaresCalls(head) && forall i :: 0 <= i < |results| ==> results[i].role == Tool
    requires tail != [] ==> tail[0].role == User || IsResponse(tail[0])
    ensures ParseRounds([head] + results + tail, []) == (Fill(FreshCalls(head.toolCalls.value), 0, results), tail)
  {
    var ms, none: seq<TurnToolCall> := [head] + results + tail, [];
    ToolRunStops(results, tail);
    var n := 1 + |results|;
    RoundSlices(head, results, tail);
    assert none + FreshCalls(head.toolCalls.value) == FreshCalls(head.toolCalls.value);
    assert ParseRounds(ms, none) == ParseRounds(tail, Fill(FreshCalls(head.toolCalls.value), 0, results));
  }

  /** The rounds of a printed turn parse back to its normalized calls. */
  lemma {:induction false} ParsePrintedCalls(t: Turn, tail: seq<ChatMessage>)
    requires tail != [] ==> tail[0].role == User || IsResponse(tail[0])
    ensures ParseRounds(PrintCalls(t) + tail, []) == (NormalCalls(t.toolCalls), tail)
  {
    if t.toolCalls == [] {
      assert PrintCalls(t) + tail == tail;
      assert NormalCalls(t.toolCalls) == [];
    } else {
      var head := AssistantWithToolCalls(None, Declared(t.turnNumber, t.toolCalls));
      ParseOneRound(head, Results(t.turnNumber, t.toolCalls), tail);
      FillPrinted(t.turnNumber, t.toolCalls);
    }
  }

  lemma {:induction false} ParsePrintedTurn(t: Turn, number: nat, rest: seq<ChatMessage>)
    requires rest != [] ==> rest[0].role == User
    ensures ParseTurn(PrintTurn(t) + rest, number) == (NormalTurn(t, number), rest)
  {
    var tail := PrintResponse(t) + rest;
    TurnTail(t, rest);
    ParsePrintedCalls(t, tail);
    if t.response.Some? {
      assert tail[0] == AssistantMessage(t.response.value) && tail[1..] == rest;
    } else {
      assert tail == rest;
    }
  }

  lemma {:induction false} TurnTail(t: Turn, rest: seq<ChatMessage>)
    ensures (PrintTurn(t) + rest)[0] == UserMessage(t.userInput)
    ensures (PrintTurn(t) + rest)[1..] == PrintCalls(t) + (PrintResponse(t) + rest)
  {
  }

  lemma {:induction false} NormalUnrolls(turns: seq<Turn>, number: nat)
    requires turns != []
    ensures Normal(turns, number) == [NormalTurn(turns[0], number)] + Normal(turns[1..], number + 1)
  {
  }

  lemma {:induction false} ParseStep(t: Turn, rest: seq<ChatMessage>, number: nat)
    requires rest != [] ==> rest[0].role == User
    ensures Parse(PrintTurn(t) + rest, number) == [NormalTurn(t, number)] + Parse(rest, number + 1)
  {
    ParsePrintedTurn(t, number, rest);
  }

  /** Parsing a printed thread gives back every turn: its input, its response and its
      calls with their names, parameters and printed contents; numbers restart at
      `number`, and error texts, turn states and surplus detail are normalized. */
  lemma {:induction false} ParsePrinted(turns: seq<Turn>, number: nat)
    ensures Parse(Print(turns), number) == Normal(turns, number)
  {
    if turns != [] {
      ParseStep(turns[0], Print(turns[1..]), number);
      ParsePrinted(turns[1..], number + 1);
      NormalUnrolls(turns, number);
    }
  }

  // ---- when the round trip is exact ----

  /** The text a call is printed from is cut cleanly, or there is none. */
  predicate CleanCall(c: TurnToolCall) {
    RawContent(c).Some? ==> CleanCut(RawContent(c).value, PREVIEW_BYTES)
  }

  predicate CleanTurn(t: Turn) {
    forall i :: 0 <= i < |t.toolCalls| ==> CleanCall(t.toolCalls[i])
  }

  predicate CleanTurns(turns: seq<Turn>) {
    forall i :: 0 <= i < |turns| ==> CleanTurn(turns[i])
  }

  lemma {:induction false} CallSurvives(c: TurnToolCall)
    ensures CallContent(NormalCall(c)) == CallContent(c) <==> CleanCall(c)
  {
    if RawContent(c).Some? { TruncateTwice(RawContent(c).value, PREVIEW_BYTES); }
    assert Bytes("OK") == 2;
  }

  lemma {:induction false} CallsSurvive(t: Turn)
    ensures PrintCalls(NormalTurn(t, t.turnNumber)) == PrintCalls(t) <==> CleanTurn(t)
  {
    var u := NormalTurn(t, t.turnNumber);
    var a, b := Results(u.turnNumber, u.toolCalls), Results(t.turnNumber, t.toolCalls);
    assert Declared(u.turnNumber, u.toolCalls) == Declared(t.turnNumber, t.toolCalls);
    forall i | 0 <= i < |t.toolCalls| ensures a[i] == b[i] <==> CleanCall(t.toolCalls[i]) {
      CallSurvives(t.toolCalls[i]);
    }
    if t.toolCalls != [] {
      assert PrintCalls(u)[1..] == a && PrintCalls(t)[1..] == b;
    }
    if PrintCalls(u) == PrintCalls(t) && t.toolCalls != [] {
      forall i | 0 <= i < |t.toolCalls| ensures CleanCall(t.toolCalls[i]) {
        assert a[i] == b[i];
      }
    }
    if CleanTurn(t) { assert a == b; }
  }

  lemma {:induction false} SameLengthSplit<T>(a: seq<T>, b: seq<T>, c: seq<T>, d: seq<T>)
    requires |a| == |c|
    ensures a + b == c + d <==> a == c && b == d
  {
    if a + b == c + d {
      assert a == (a + b)[..|a|] && c == (c + d)[..|a|];
      assert b == (a + b)[|a|..] && d == (c + d)[|a|..];
    }
  }

  lemma {:induction false} TurnSurvives(t: Turn)
    ensures |PrintTurn(NormalTurn(t, t.turnNumber))| == |PrintTurn(t)|
    ensures PrintTurn(NormalTurn(t, t.turnNumber)) == PrintTurn(t) <==> CleanTurn(t)
  {
    var u := NormalTurn(t, t.turnNumber);
    CallsSurvive(t);
    SameLengthSplit([UserMessage(t.userInput)], PrintCalls(u) + PrintResponse(u),
                    [UserMessage(t.userInput)], PrintCalls(t) + PrintResponse(t));
    SameLengthSplit(PrintCalls(u), PrintResponse(u), PrintCalls(t), PrintResponse(t));
  }

  predicate NumberedFrom(turns: seq<Turn>, n: nat) {
    forall i :: 0 <= i < |turns| ==> turns[i].turnNumber == n + i
  }

  lemma {:induction false} NormalPrintsSame(turns: seq<Turn>, n: nat)
    requires NumberedFrom(turns, n)
    ensures Print(Normal(turns, n)) == Print(turns) <==> CleanTurns(turns)
  {
    if turns == [] {
      assert Normal(turns, n) == [];
    } else {
      var first, rest := turns[0], turns[1..];
      NormalUnrolls(turns, n);
      PrintUnrolls(NormalTurn(first, n), Normal(rest, n + 1));
      PrintUnrolls(first, rest);
      assert [first] + rest == turns;
      NormalPrintsSame(rest, n + 1);
      TurnSurvives(first);
      SameLengthSplit(PrintTurn(NormalTurn(first, n)), Print(Normal(rest, n + 1)), PrintTurn(first), Print(rest));
      CleanUnrolls(first, rest);
    }
  }

  lemma {:induction false} PrintUnrolls(first: Turn, rest: seq<Turn>)
    ensures Print([first] + rest) == PrintTurn(first) + Print(rest)
  {
    assert ([first] + rest)[1..] == rest;
  }

  lemma {:induction false} CleanUnrolls(first: Turn, rest: seq<Turn>)
    ensures CleanTurns([first] + rest) <==> CleanTurn(first) && CleanTurns(rest)
  {
    var turns := [first] + rest;
    assert turns[0] == first && forall i :: 0 <= i < |rest| ==> turns[i + 1] == rest[i];
    if CleanTurns(turns) {
      forall i | 0 <= i < |rest|
        ensures CleanTurn(rest[i])
      {
        assert CleanTurn(turns[i + 1]);
      }
    }
  }

  /** Printing after parsing a printed thread reproduces it exactly when every tool text
      that gets cut is cut cleanly. */
  lemma {:induction false} PrintParsePrint(turns: seq<Turn>)
    requires Numbered(turns)
    ensures Print(Parse(Print(turns), 0)) == Print(turns) <==> CleanTurns(turns)
  {
    ParsePrinted(turns, 0);
    NormalPrintsSame(turns, 0);
  }

  lemma {:induction false} ParseNumbers(ms: seq<ChatMessage>, n: nat)
    ensures NumberedFrom(Parse(ms, n), n)
    decreases |ms|
  {
    if ms != [] {
      if ms[0].role == User {
        var (turn, rest) := ParseTurn(ms, n);
        ParseNumbers(rest, n + 1);
      } else {
        ParseNumbers(ms[1..], n);
      }
    }
  }

  function Reprint(ms: seq<ChatMessage>): seq<ChatMessage> { Print(Parse(ms, 0)) }

  /** For any message list, well formed or not: parsing and printing twice gives what once
      gives exactly when all tool texts are cut cleanly. */
  lemma {:induction false} ReprintIdempotent(ms: seq<ChatMessage>)
    ensures Reprint(Reprint(ms)) == Reprint(ms) <==> CleanTurns(Parse(ms, 0))
  {
    ParseNumbers(ms, 0);
    PrintParsePrint(Parse(ms, 0));
  }

  /** The normal form of any message list is reached after two rounds. */
  lemma {:induction false} ReprintStabilizes(ms: seq<ChatMessage>)
    ensures Reprint(Reprint(Reprint(ms))) == Reprint(Reprint(ms))
  {
    ParseNumbers(ms, 0);
    var turns := Parse(ms, 0);
    ParsePrinted(turns, 0);
    ReprintIdempotent(Reprint(ms));
    forall i | 0 <= i < |turns| ensures CleanTurn(Normal(turns, 0)[i]) {
      forall j | 0 <= j < |turns[i].toolCalls| ensures CleanCall(NormalCall(turns[i].toolCalls[j])) {
        NormalCallClean(turns[i].toolCalls[j]);
      }
    }
  }

  lemma {:induction false} NormalCallClean(c: TurnToolCall)
    ensures CleanCall(NormalCall(c))
  {
    if RawContent(c).Some? {
      var raw := RawContent(c).value;
      TruncateThrice(raw, PREVIEW_BYTES);
      TruncateTwice(TruncatePreview(raw, PREVIEW_BYTES), PREVIEW_BYTES);
    } else {
      assert Bytes("OK") == 2;
    }
  }

  /** A thread that the round trip changes: one call whose result straddles the cut. */
  lemma {:induction false} RoundTripCanChange()
    ensures var t := Turn(0, "", None, [TurnToolCall("t", "", Some(Text(Straddling())), None)], InProgress, None);
            Print(Parse(Print([t]), 0)) != Print([t])
  {
    var c := TurnToolCall("t", "", Some(Text(Straddling())), None);
    var t := Turn(0, "", None, [c], InProgress, None);
    TruncateIsNotIdempotent();
    TruncateTwice(Straddling(), PREVIEW_BYTES);
    assert !CleanCall(t.toolCalls[0]);
    assert !CleanTurn([t][0]);
    PrintParsePrint([t]);
  }

  // ---- what every sequence of mutations keeps ----

  /** Turn numbers are positions after every sequence of mutations. */
  lemma {:induction false} NumbersAreKept(turns: seq<Turn>, ops: seq<Op>)
    requires Numbered(turns)
    ensures Numbered(ApplyAll(turns, ops))
    decreases ops
  {
    if ops != [] {
      if ops[0].Restore? { ParseNumbers(ops[0].messages, 0); }
      NumbersAreKept(Apply(turns, ops[0]), ops[1..]);
    }
  }

  lemma {:induction false} PrintedCallsProtocol(t: Turn)
    ensures Protocol(PrintCalls(t))
  {
    if t.toolCalls != [] {
      var calls := Declared(t.turnNumber, t.toolCalls);
      var results := Results(t.turnNumber, t.toolCalls);
      assert PrintCalls(t)[1..1 + |calls|] == results;
      assert PrintCalls(t)[1 + |calls|..] == [];
    }
  }

  lemma {:induction false} PrintedTurnProtocol(t: Turn)
    ensures Protocol(PrintTurn(t))
  {
    ghost var calls, response := PrintCalls(t), PrintResponse(t);
    PrintedCallsProtocol(t);
    assert Protocol(response);
    ProtocolConcat(calls, response);
    assert PrintTurn(t)[1..] == calls + response;
  }

  lemma {:induction false} PrintedProtocol(turns: seq<Turn>)
    ensures Protocol(Print(turns))
  {
    if turns != [] {
      PrintedTurnProtocol(turns[0]);
      PrintedProtocol(turns[1..]);
      ProtocolConcat(PrintTurn(turns[0]), Print(turns[1..]));
    }
  }

  /** No two tool results of a list share an id. */
  predicate DistinctResults(ms: seq<ChatMessage>) {
    forall p, q :: 0 <= p < q < |ms| && ms[p].role == Tool && ms[q].role == Tool ==>
      ms[p].toolCallId != ms[q].toolCallId
  }

  /** An id of some call of turn n or later. */
  ghost predicate IssuedFrom(id: Option<string>, n: nat) {
    exists m: nat, i: nat :: m >= n && id == Some(CallId(m, i))
  }

  lemma {:induction false} NotReissued(n: nat, i: nat, id: Option<string>)
    requires IssuedFrom(id, n + 1)
    ensures id != Some(CallId(n, i)) && IssuedFrom(id, n)
  {
    var m: nat, j: nat :| m >= n + 1 && id == Some(CallId(m, j));
    if CallId(m, j) == CallId(n, i) { CallIdInjective(m, j, n, i); }
  }

  /** The results of a printed turn stand from position 2 on. */
  lemma {:induction false} TurnIds(t: Turn, p: nat)
    requires p < |PrintTurn(t)|
    ensures PrintTurn(t)[p].role == Tool ==>
              p >= 2 && PrintTurn(t)[p].toolCallId == Some(CallId(t.turnNumber, p - 2))
  {
    var calls := PrintCalls(t);
    if 0 < p <= |calls| {
      assert PrintTurn(t)[p] == calls[p - 1];
    } else if p > |calls| {
      assert PrintTurn(t)[p] == PrintResponse(t)[p - 1 - |calls|];
    }
  }

  /** Every result of a list belongs to a call of turn n or later. */
  ghost predicate AllIssuedFrom(ms: seq<ChatMessage>, n: nat) {
    forall p :: 0 <= p < |ms| && ms[p].role == Tool ==> IssuedFrom(ms[p].toolCallId, n)
  }

  lemma {:induction false} TurnResultsDistinct(t: Turn)
    ensures DistinctResults(PrintTurn(t)) && AllIssuedFrom(PrintTurn(t), t.turnNumber)
  {
    var ms := PrintTurn(t);
    forall p, q | 0 <= p < q < |ms| && ms[p].role == Tool && ms[q].role == Tool
      ensures ms[p].toolCallId != ms[q].toolCallId
    {
      TurnIds(t, p);
      TurnIds(t, q);
      if ms[p].toolCallId == ms[q].toolCallId { CallIdInjective(t.turnNumber, p - 2, t.turnNumber, q - 2); }
    }
    forall p | 0 <= p < |ms| && ms[p].role == Tool ensures IssuedFrom(ms[p].toolCallId, t.turnNumber) {
      TurnIds(t, p);
    }
  }

  lemma {:induction false} PrintedIds(turns: seq<Turn>, n: nat)
    requires NumberedFrom(turns, n)
    ensures DistinctResults(Print(turns)) && AllIssuedFrom(Print(turns), n)
  {
    if turns != [] {
      var a, b := PrintTurn(turns[0]), Print(turns[1..]);
      TurnResultsDistinct(turns[0]);
      PrintedIds(turns[1..], n + 1);
      forall p, q | 0 <= p < |a| && 0 <= q < |b| && a[p].role == Tool && b[q].role == Tool
        ensures a[p].toolCallId != b[q].toolCallId
      {
        TurnIds(turns[0], p);
        NotReissued(n, p - 2, b[q].toolCallId);
      }
      forall q | 0 <= q < |b| && b[q].role == Tool ensures IssuedFrom(b[q].toolCallId, n) {
        NotReissued(n, 0, b[q].toolCallId);
      }
      DistinctConcat(a, b, n);
    }
  }

  lemma {:induction false} DistinctConcat(a: seq<ChatMessage>, b: seq<ChatMessage>, n: nat)
    requires DistinctResults(a) && DistinctResults(b) && AllIssuedFrom(a, n) && AllIssuedFrom(b, n)
    requires forall p, q :: 0 <= p < |a| && 0 <= q < |b| && a[p].role == Tool && b[q].role == Tool ==>
               a[p].toolCallId != b[q].toolCallId
    ensures DistinctResults(a + b) && AllIssuedFrom(a + b, n)
  {
  }

  /** After any sequence of mutations of a new thread, restores of arbitrary lists
      included, the printed thread obeys the tool-call protocol and no two results in it
      share an id. */
  lemma {:induction false} EveryThreadPrintsWellFormed(ops: seq<Op>)
    ensures var turns := ApplyAll([], ops);
            Numbered(turns) && Protocol(Print(turns)) && DistinctResults(Print(turns))
  {
    NumbersAreKept([], ops);
    var turns := ApplyAll([], ops);
    PrintedProtocol(turns);
    PrintedIds(turns, 0);
  }
}
