/** What a printed thread says (src/agent/session.rs, messages): which text every message carries,
    and what every mutation leaves of the last turn. */
module ThreadPrinting {
  import opened Wrappers
  import opened Chat
  import opened CallIds
  import opened Preview
  import opened Threads
  import opened Lists

  // ---- the text of a tool message ----

  /** The longest prefix of whole characters within the budget of bytes. */
  ghost predicate IsLongestPrefix(cut: string, s: string, max: nat) {
    && cut <= s && Bytes(cut) <= max
    && forall p: string :: p <= s && Bytes(p) <= max ==> |p| <= |cut|
  }

  /** What follows a cut: dots, and the closing tag when the text starts as tool output. */
  function Closing(text: string): string {
    if "<tool_output" <= text then "...\n</tool_output>" else "..."
  }

  ghost predicate IsCutAt(content: string, text: string, cut: string) {
    IsLongestPrefix(cut, text, 1000) && content == cut + Closing(text)
  }

  /** The text as it is within 1000 bytes, else its longest prefix within them and what follows a
      cut. */
  ghost predicate Shows(content: string, text: string) {
    if Bytes(text) <= 1000 then content == text else exists cut :: IsCutAt(content, text, cut)
  }

  lemma {:induction false} FloorIsLongestPrefix(s: string, max: nat)
    ensures IsLongestPrefix(Floor(s, max), s, max)
  {
    FloorIsLongest(s, max);
    forall p: string | p <= s && Bytes(p) <= max
      ensures |p| <= |Floor(s, max)|
    {
      FloorCoversPrefix(p, s, max);
    }
  }

  lemma {:induction false} FloorCoversPrefix(p: string, s: string, max: nat)
    requires p <= s && Bytes(p) <= max
    ensures |p| <= |Floor(s, max)|
  {
    if p != "" {
      assert p[0] == s[0] && p[1..] <= s[1..];
      FloorCoversPrefix(p[1..], s[1..], max - CharBytes(s[0]));
    }
  }

  lemma {:induction false} TruncatedShows(text: string)
    ensures Shows(TruncatePreview(text, PREVIEW_BYTES), text)
  {
    if Bytes(text) > 1000 {
      CutShows(text, 1000);
      assert IsCutAt(TruncatePreview(text, 1000), text, Floor(text, 1000));
    }
  }

  lemma {:induction false} ClosingIsEnding(text: string)
    ensures Closing(text) == Ending(text)
  {
    assert "...\n" + CLOSE_TAG == "...\n</tool_output>";
  }

  lemma {:induction false} CutShows(text: string, max: nat)
    requires Bytes(text) > max
    ensures TruncatePreview(text, max) == Floor(text, max) + Closing(text)
    ensures IsLongestPrefix(Floor(text, max), text, max)
  {
    FloorIsLongestPrefix(text, max);
    ghost var closing := Closing(text);
    ClosingIsEnding(text);
    CutShape(text, max);
  }

  /** A call prints its error, also beside a result; without one its result; and the text "OK"
      stands for neither. */
  ghost predicate SaysOutcome(content: string, c: TurnToolCall) {
    && (c.error.Some? ==> Shows(content, c.error.value))
    && (c.error.None? && c.result.Some? ==>
          Shows(content, if c.result.value.Text? then c.result.value.s else c.result.value.rendering))
    && (c.error.None? && c.result.None? ==> content == "OK")
  }

  /** "OK" is printed exactly when there is neither an error nor a result, or that text is "OK". */
  lemma {:induction false} OkExactlyWhen(content: string, c: TurnToolCall)
    requires SaysOutcome(content, c)
    ensures content == "OK" <==>
            || (c.error.None? && c.result.None?)
            || c.error == Some("OK")
            || (c.error.None? && (c.result == Some(Text("OK")) || c.result == Some(Structured("OK"))))
  {
    if c.error.Some? { ShowsOk(content, c.error.value); }
    else if c.result.Some? {
      ShowsOk(content, if c.result.value.Text? then c.result.value.s else c.result.value.rendering);
    }
  }

  lemma {:induction false} ShowsOk(content: string, text: string)
    requires Shows(content, text)
    ensures content == "OK" <==> text == "OK"
  {
    if Bytes(text) > 1000 {
      var cut :| IsCutAt(content, text, cut);
      assert |content| >= 3;
      OkIsShort(text);
    }
  }

  lemma {:induction false} OkIsShort(text: string)
    requires Bytes(text) > 1000
    ensures text != "OK"
  {
    assert Bytes("OK") == 2 by { AsciiBytes("OK"); }
  }

  lemma {:induction false} ContentSaysOutcome(c: TurnToolCall)
    ensures SaysOutcome(CallContent(c), c)
  {
    if c.error.Some? { TruncatedShows(c.error.value); }
    else if c.result.Some? {
      TruncatedShows(if c.result.value.Text? then c.result.value.s else c.result.value.rendering);
    }
  }

  // ---- the printed thread ----

  /** How many messages a turn prints: its input, the declaration and answers of its calls, and
      its response. */
  function SizeOf(t: Turn): nat {
    1 + (if t.toolCalls == [] then 0 else 1 + |t.toolCalls|) + if t.response.Some? then 1 else 0
  }

  /** Where turn k starts in the printed list. */
  function StartOf(turns: seq<Turn>, k: nat): nat
    requires k <= |turns|
  {
    Total(turns[..k], SizeOf)
  }

  lemma {:induction false} PrintIsFlatMap(turns: seq<Turn>)
    ensures Print(turns) == FlatMap(turns, PrintTurn)
  {
    if turns != [] { PrintIsFlatMap(turns[1..]); }
  }

  lemma {:induction false} TurnSize(t: Turn)
    ensures |PrintTurn(t)| == SizeOf(t)
  {
  }

  lemma {:induction false} StartIsLength(turns: seq<Turn>, k: nat)
    requires k <= |turns|
    ensures StartOf(turns, k) == |FlatMap(turns[..k], PrintTurn)|
  {
    forall i | 0 <= i < k
      ensures |PrintTurn(turns[..k][i])| == SizeOf(turns[..k][i])
    {
      TurnSize(turns[i]);
    }
    TotalIsLength(turns[..k], PrintTurn, SizeOf);
  }

  lemma {:induction false} TurnIsAt(turns: seq<Turn>, k: nat)
    requires k < |turns|
    ensures StartOf(turns, k) + SizeOf(turns[k]) <= |Print(turns)|
    ensures Print(turns)[StartOf(turns, k)..][..SizeOf(turns[k])] == PrintTurn(turns[k])
  {
    PrintIsFlatMap(turns);
    StartIsLength(turns, k);
    TurnSize(turns[k]);
    PartIsAt(turns, PrintTurn, k);
  }

  lemma {:induction false} PrintSize(turns: seq<Turn>)
    ensures |Print(turns)| == StartOf(turns, |turns|)
  {
    PrintIsFlatMap(turns);
    StartIsLength(turns, |turns|);
    assert turns[..|turns|] == turns;
  }

  /** The messages of one turn: the input, one declaration of all calls with their names and
      parameters, one answer a call under the same id that says its outcome, and the response. */
  ghost predicate TellsTurn(ms: seq<ChatMessage>, t: Turn) {
    var n := |t.toolCalls|;
    && |ms| == SizeOf(t)
    && ms[0] == ChatMessage(User, t.userInput, None, None, None)
    && (n > 0 ==> DeclaresAll(ms[1], t) && forall i :: 0 <= i < n ==> AnswersOne(ms, t, i))
    && (t.response.Some? ==> ms[|ms| - 1] == ChatMessage(Assistant, t.response.value, None, None, None))
  }

  predicate DeclaresAll(m: ChatMessage, t: Turn) {
    && m.role == Assistant && m.content == "" && m.toolCallId == None && m.name == None
    && m.toolCalls.Some? && |m.toolCalls.value| == |t.toolCalls|
    && forall i :: 0 <= i < |t.toolCalls| ==>
         m.toolCalls.value[i] == ToolCall(CallId(t.turnNumber, i), t.toolCalls[i].name, t.toolCalls[i].parameters)
  }

  ghost predicate AnswersOne(ms: seq<ChatMessage>, t: Turn, i: nat)
    requires i < |t.toolCalls| && i + 2 < |ms|
  {
    var m := ms[2 + i];
    && m.role == Tool && m.toolCalls == None
    && m.toolCallId == Some(CallId(t.turnNumber, i)) && m.name == Some(t.toolCalls[i].name)
    && SaysOutcome(m.content, t.toolCalls[i])
  }

  lemma {:induction false} TurnTellsItself(t: Turn)
    ensures TellsTurn(PrintTurn(t), t)
  {
    var ms := PrintTurn(t);
    forall i | 0 <= i < |t.toolCalls|
      ensures AnswersOne(ms, t, i)
    {
      ContentSaysOutcome(t.toolCalls[i]);
      assert ms[2 + i] == Results(t.turnNumber, t.toolCalls)[i];
    }
  }

  /** The printed thread is, turn by turn, the messages that tell it, and nothing else. */
  lemma {:induction false} PrintTellsEveryTurn(turns: seq<Turn>, k: nat)
    requires k < |turns|
    ensures |Print(turns)| == StartOf(turns, |turns|)
    ensures StartOf(turns, k) + SizeOf(turns[k]) <= |Print(turns)|
    ensures TellsTurn(Print(turns)[StartOf(turns, k)..][..SizeOf(turns[k])], turns[k])
  {
    PrintSize(turns);
    TurnIsAt(turns, k);
    TurnTellsItself(turns[k]);
  }

  // ---- mutations ----

  /** Everything but the last turn stays. */
  predicate SameBefore(turns: seq<Turn>, after: seq<Turn>) {
    turns != [] && |after| == |turns| && forall i :: 0 <= i < |turns| - 1 ==> after[i] == turns[i]
  }

  /** The last turn with another list of calls. */
  predicate OnlyCalls(before: Turn, after: Turn) {
    && after.turnNumber == before.turnNumber && after.userInput == before.userInput
    && after.response == before.response && after.state == before.state && after.error == before.error
  }

  /** What each operation on the last turn leaves, and that it touches no other turn. */
  predicate Leaves(op: Op, before: Turn, after: Turn) {
    var calls, n := before.toolCalls, |before.toolCalls|;
    match op
    case Complete(response) =>
      after == Turn(before.turnNumber, before.userInput, Some(response), calls, Completed, before.error)
    case Fail(error) =>
      after == Turn(before.turnNumber, before.userInput, before.response, calls, Failed, Some(error))
    case Stop =>
      after == Turn(before.turnNumber, before.userInput, before.response, calls, Interrupted, before.error)
    case Call(name, ps) =>
      OnlyCalls(before, after) && after.toolCalls == calls + [TurnToolCall(name, ps, None, None)]
    case Succeed(result) =>
      && OnlyCalls(before, after) && |after.toolCalls| == n
      && (forall i :: 0 <= i < n - 1 ==> after.toolCalls[i] == calls[i])
      && (n > 0 ==> after.toolCalls[n - 1]
                    == TurnToolCall(calls[n - 1].name, calls[n - 1].parameters, Some(result), calls[n - 1].error))
    case Break(error) =>
      && OnlyCalls(before, after) && |after.toolCalls| == n
      && (forall i :: 0 <= i < n - 1 ==> after.toolCalls[i] == calls[i])
      && (n > 0 ==> after.toolCalls[n - 1]
                    == TurnToolCall(calls[n - 1].name, calls[n - 1].parameters, calls[n - 1].result, Some(error)))
    case _ => true
  }

  /** A start appends an open turn; every other operation on a turn writes the last one only. */
  lemma {:induction false} OperationsWriteTheLastTurn(turns: seq<Turn>, op: Op)
    ensures op.Start? ==>
              Apply(turns, op) == turns + [Turn(|turns|, op.userInput, None, [], InProgress, None)]
    ensures !op.Start? && !op.Truncate? && !op.Restore? ==>
              if turns == [] then Apply(turns, op) == []
              else
                && SameBefore(turns, Apply(turns, op))
                && Leaves(op, turns[|turns| - 1], Apply(turns, op)[|turns| - 1])
  {
  }
}
