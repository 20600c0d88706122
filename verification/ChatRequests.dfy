/** What a chat run sends and why it ends (src/agent/dispatcher.rs over src/agent/agentic_loop.rs):
    when the limit note is added, what each reply adds to the conversation, and the outcome of
    every iteration. */
module ChatRequests {
  import opened Wrappers
  import opened Chat
  import opened ToolExecution
  import opened RetryCompaction
  import Loop = AgenticLoop
  import opened ChatRuns

  // ---- one iteration of the loop ----

  predicate NudgedIn(cfg: Loop.Config, intent: string -> bool, t: Loop.Turn, nudges: nat) {
    && t.reply.Text? && cfg.enableNudge && t.toolsAvailable && !t.forceText
    && nudges < cfg.maxNudges && intent(t.reply.text)
  }

  /** What one iteration does, in order, with which result it ends the loop, and the counter it
      goes on with. */
  lemma {:induction false} IterationTable(cfg: Loop.Config, intent: string -> bool, t: Loop.Turn, nudges: nat)
    ensures var events := Loop.IterationEvents(cfg, intent, t, nudges);
            var ended := Loop.IterationResult(cfg, intent, t, nudges);
            var next := Loop.NextNudges(cfg, intent, t, nudges);
            var first := if t.signal.InjectMessage? then [Loop.Injected(t.signal.text)] else [];
            if t.signal.Stop? then events == [] && ended == Some(Ok(Loop.Stopped))
            else if t.early.Some? then events == first && ended == Some(Ok(t.early.value))
            else
              match t.reply
              case CallFailed(error) => events == first + [Loop.Called] && ended == Some(Err(error))
              case ToolCalls =>
                && events == first + [Loop.Called, Loop.Executed] && next == 0
                && ended == (match t.executed
                             case Err(error) => Some(Err(error))
                             case Ok(Some(outcome)) => Some(Ok(outcome))
                             case Ok(None) => None)
              case Text(text) =>
                if NudgedIn(cfg, intent, t, nudges)
                then events == first + [Loop.Called, Loop.Nudged(text)] && ended == None && next == nudges + 1
                else
                  && events == first + [Loop.Called, Loop.Handled(text)]
                  && next == (if intent(text) then nudges else 0)
                  && ended == if t.handled.Some? then Some(Ok(t.handled.value)) else None
  {
  }

  /** How a chat iteration ends the run, if it does: stopped by an interruption; with the cost
      guard's refusal, the error of the call or its overflow after the retry; with the text, unless
      it is answered by a nudge, of which there are at most two in a row and none when text is
      forced; or with the outcome of the batch. */
  lemma {:induction false} IterationEnds(c: Setup, n: nat, t: Turn, nudges: nat)
    requires Sound(t)
    ensures var ended := Loop.IterationResult(Loop.ChatConfig(c.max), c.intent, Seen(c, n, t), nudges);
            var last := if t.request.Overflowed? then t.retry else t.request;
            if t.interrupted then ended == Some(Ok(Loop.Stopped))
            else if t.refused.Some? then ended == Some(Err(t.refused.value))
            else
              match last
              case Overflowed => ended == Some(Err(OVERFLOW))
              case Broken(error) => ended == Some(Err(error))
              case Answered(Said(text)) =>
                ended == if t.toolsAvailable && n < c.max && nudges < 2 && c.intent(text) then None
                         else Some(Ok(Loop.Response(c.strip(text))))
              case Answered(Asked(calls, _, env)) =>
                var a := ApprovalAt(env);
                var prompt := FirstPrompt(c.services, calls[..a], env[..a]);
                ended == if Unwinds(env) then Some(Err(PANIC))
                         else if prompt.Some? then Some(Ok(Loop.Response(prompt.value)))
                         else if a < |calls| then Some(Ok(Loop.NeedApproval))
                         else None
  {
  }

  /** What the conversation is after an iteration that does not end the run: what the model said and
      the nudge, or the declaration of its calls and all their answers. */
  lemma {:induction false} ReplyIsCarried(c: Setup, n: nat, t: Turn, ms: seq<ChatMessage>)
    requires Sound(t) && Final(t).Answered?
    ensures var at, after := AtReply(c, n, t, ms), After(c, n, t, ms);
            match Final(t).reply
            case Said(text) =>
              after == at + [ChatMessage(Assistant, text, None, None, None),
                             ChatMessage(User, c.nudgeText, None, None, None)]
            case Asked(calls, content, env) =>
              && |after| == |at| + 1 + |calls| && at <= after
              && after[|at|].role == Assistant && after[|at|].content == (if content.Some? then content.value else "")
              && after[|at|].toolCalls == (if calls == [] then None else Some(calls))
              && after[|at| + 1..] == AnswersInOrder(c.services, calls, env)
  {
  }

  /** The reply is added to the conversation of the last request, which the model answered. */
  lemma {:induction false} ReplyFollowsLastRequest(c: Setup, n: nat, t: Turn, ms: seq<ChatMessage>)
    requires Sent(c, n, t, ms) != []
    ensures AtReply(c, n, t, ms) == Sent(c, n, t, ms)[|Sent(c, n, t, ms)| - 1]
    ensures |Sent(c, n, t, ms)| == if t.request.Overflowed? then 2 else 1
  {
  }

  // ---- the limit note ----

  /** The first request of an iteration carries the conversation as it stands, with the limit note
      added at its end exactly when text is not forced in this iteration and is in the next one;
      a second one, after an overflow, carries its compaction. */
  lemma {:induction false} NoteIsAddedExactlyWhen(c: Setup, n: nat, t: Turn, ms: seq<ChatMessage>)
    requires n >= 1 && Sound(t)
    ensures var sent := Sent(c, n, t, ms);
            var forcesNext := n < c.max && c.max <= n + 1;
            var first := if forcesNext then ms + [ChatMessage(System, LIMIT_NOTE, None, None, None)] else ms;
            && (sent == [] <==> t.interrupted || t.refused.Some?)
            && (sent != [] ==> sent == if t.request.Overflowed? then [first, Compacted(first)] else [first])
            && Seen(c, n, t).forceText == (c.max <= n)
  {
  }

  predicate IsNote(m: ChatMessage) {
    m.role == System && m.content == LIMIT_NOTE
  }

  /** How often a list holds the limit note. */
  function Notes(ms: seq<ChatMessage>): nat {
    if ms == [] then 0 else Notes(ms[..|ms| - 1]) + if IsNote(ms[|ms| - 1]) then 1 else 0
  }

  lemma {:induction false} NotesConcat(a: seq<ChatMessage>, b: seq<ChatMessage>)
    ensures Notes(a + b) == Notes(a) + Notes(b)
    decreases |b|
  {
    if b == [] {
      assert a + b == a;
    } else {
      var all := a + b;
      assert all[..|all| - 1] == a + b[..|b| - 1];
      NotesConcat(a, b[..|b| - 1]);
    }
  }

  lemma {:induction false} OneNote(m: ChatMessage)
    ensures Notes([m]) == if IsNote(m) then 1 else 0
  {
    assert [m][..0] == [];
  }

  lemma {:induction false} NoNotes(ms: seq<ChatMessage>)
    requires forall i :: 0 <= i < |ms| ==> ms[i].role != System
    ensures Notes(ms) == 0
  {
    if ms != [] { NoNotes(ms[..|ms| - 1]); }
  }

  lemma {:induction false} NotesOfParts(ms: seq<ChatMessage>)
    ensures Notes(Systems(ms)) == Notes(ms) && Notes(NonSystems(ms)) == 0
  {
    if ms != [] {
      var rest, last := ms[..|ms| - 1], ms[|ms| - 1];
      NotesOfParts(rest);
      OneNote(last);
      NotesConcat(Systems(rest), [last]);
      NotesConcat(NonSystems(rest), [last]);
      if last.role == System { assert Systems(ms) == Systems(rest) + [last] && NonSystems(ms) == NonSystems(rest); }
      else { assert Systems(ms) == Systems(rest) && NonSystems(ms) == NonSystems(rest) + [last]; }
    }
  }

  lemma {:induction false} NotesOfThree(a: seq<ChatMessage>, b: seq<ChatMessage>, d: seq<ChatMessage>)
    ensures Notes(a + b + d) == Notes(a) + Notes(b) + Notes(d)
  {
    NotesConcat(a + b, d);
    NotesConcat(a, b);
  }

  lemma {:induction false} NotesSplit(ms: seq<ChatMessage>, idx: nat)
    requires idx <= |ms|
    ensures Notes(ms) == Notes(ms[..idx]) + Notes(ms[idx..])
  {
    assert ms == ms[..idx] + ms[idx..];
    NotesConcat(ms[..idx], ms[idx..]);
  }

  /** The compaction before a retry keeps the note. */
  lemma {:induction false} CompactionKeepsNotes(ms: seq<ChatMessage>)
    ensures Notes(Compacted(ms)) == Notes(ms)
  {
    match LastUser(ms)
    case Some(idx) =>
      ghost var note := if idx > 0 then [SystemMessage(NOTE)] else [];
      NoteIsNot(note);
      NotesOfParts(ms[..idx]);
      NotesSplit(ms, idx);
      NotesOfThree(Systems(ms[..idx]), note, ms[idx..]);
    case None =>
      NotesOfParts(ms);
      NotesConcat(Systems(ms), NonSystems(ms));
  }

  lemma {:induction false} NoteIsNot(note: seq<ChatMessage>)
    requires note == [] || note == [SystemMessage(NOTE)]
    ensures Notes(note) == 0
  {
    NotesDiffer();
    OneNote(SystemMessage(NOTE));
  }

  lemma {:induction false} NotesDiffer()
    ensures NOTE != LIMIT_NOTE
  {
    var x, y := NOTE, LIMIT_NOTE;
    assert x[|x| - 1] == ']';
    assert y[|y| - 1] == '.';
  }

  /** Whether the limit note has been added when iteration n makes its requests. */
  function Added(c: Setup, n: nat): nat {
    if 2 <= c.max <= n + 1 then 1 else 0
  }

  lemma {:induction false} RequestNotes(c: Setup, n: nat, t: Turn, ms: seq<ChatMessage>)
    requires n >= 1
    ensures Notes(Prepared(c, n, ms)) == Notes(ms) + if c.max == n + 1 then 1 else 0
    ensures Notes(AtReply(c, n, t, ms)) == Notes(Prepared(c, n, ms))
    ensures forall i :: 0 <= i < |Sent(c, n, t, ms)| ==> Notes(Sent(c, n, t, ms)[i]) == Notes(Prepared(c, n, ms))
  {
    NotesConcat(ms, [SystemMessage(LIMIT_NOTE)]);
    OneNote(SystemMessage(LIMIT_NOTE));
    CompactionKeepsNotes(Prepared(c, n, ms));
  }

  lemma {:induction false} ReplyAddsNoNote(c: Setup, n: nat, t: Turn, ms: seq<ChatMessage>)
    requires Sound(t) && Final(t).Answered?
    ensures Notes(After(c, n, t, ms)) == Notes(AtReply(c, n, t, ms))
  {
    var at := AtReply(c, n, t, ms);
    match Final(t).reply
    case Said(text) =>
      var more := [AssistantMessage(text), UserMessage(c.nudgeText)];
      NoNotes(more);
      NotesConcat(at, more);
    case Asked(calls, content, env) =>
      var more := [AssistantWithToolCalls(content, calls)] + AnswersInOrder(c.services, calls, env);
      NoNotes(more);
      NotesConcat(at, more);
  }

  /** A request and the iteration that makes it. */
  datatype Made = Made(n: nat, ms: seq<ChatMessage>)

  function MadeIn(n: nat, sent: seq<seq<ChatMessage>>): seq<Made> {
    seq(|sent|, i requires 0 <= i < |sent| => Made(n, sent[i]))
  }

  function Messages(made: seq<Made>): seq<seq<ChatMessage>> {
    seq(|made|, i requires 0 <= i < |made| => made[i].ms)
  }

  /** What one iteration makes, and what the next starts from if there is one. */
  datatype Stepped<S, R> = Stepped(made: seq<R>, next: Option<S>)

  /** All that a run of steps makes. */
  function Trace<S, T, R>(step: (nat, T, S) -> Stepped<S, R>, n: nat, ts: seq<T>, s: S): seq<R>
    decreases |ts|
  {
    if ts == [] then []
    else
      var r := step(n, ts[0], s);
      r.made + if r.next.None? then [] else Trace(step, n + 1, ts[1..], r.next.value)
  }

  lemma {:induction false} TraceKeeps<S, T(!new), R>(
    step: (nat, T, S) -> Stepped<S, R>, inv: (nat, S) -> bool, good: T -> bool, ok: R -> bool,
    n: nat, ts: seq<T>, s: S)
    requires inv(n, s) && forall i :: 0 <= i < |ts| ==> good(ts[i])
    requires forall m: nat, t: T, x: S :: inv(m, x) && good(t) ==> StepKeeps(step, inv, ok, m, t, x)
    ensures forall i :: 0 <= i < |Trace(step, n, ts, s)| ==> ok(Trace(step, n, ts, s)[i])
    decreases |ts|
  {
    if ts != [] {
      var r := step(n, ts[0], s);
      assert StepKeeps(step, inv, ok, n, ts[0], s);
      if r.next.Some? { TraceKeeps(step, inv, good, ok, n + 1, ts[1..], r.next.value); }
    }
  }

  predicate StepKeeps<S, T, R>(
    step: (nat, T, S) -> Stepped<S, R>, inv: (nat, S) -> bool, ok: R -> bool, m: nat, t: T, x: S)
  {
    var r := step(m, t, x);
    (forall i :: 0 <= i < |r.made| ==> ok(r.made[i])) && (r.next.Some? ==> inv(m + 1, r.next.value))
  }

  /** The conversation and the nudges in a row with which an iteration starts. */
  datatype From = From(ms: seq<ChatMessage>, nudges: nat)

  function StepOf(c: Setup, n: nat, t: Turn, s: From): Stepped<From, Made> {
    if !Sound(t) then Stepped([], None)
    else
      Stepped(MadeIn(n, Sent(c, n, t, s.ms)),
              if GoesOn(c, n, t, s.nudges) && Final(t).Answered?
              then Some(From(After(c, n, t, s.ms), NudgesAfter(c, n, t, s.nudges))) else None)
  }

  /** The requests of a run with the iterations that make them. */
  function MadeFrom(c: Setup, n: nat, turns: seq<Turn>, s: From): seq<Made> {
    Trace((m, t, x) => StepOf(c, m, t, x), n, turns, s)
  }

  lemma {:induction false} MadeMore(c: Setup, n: nat, turns: seq<Turn>, s: From)
    requires turns != []
    ensures var r := StepOf(c, n, turns[0], s);
            MadeFrom(c, n, turns, s)
            == r.made + if r.next.None? then [] else MadeFrom(c, n + 1, turns[1..], r.next.value)
  {
  }

  lemma {:induction false} MessagesConcat(n: nat, sent: seq<seq<ChatMessage>>, more: seq<Made>)
    ensures Messages(MadeIn(n, sent) + more) == sent + Messages(more)
  {
  }

  lemma {:induction false} MadeIsSent(c: Setup, n: nat, turns: seq<Turn>, s: From)
    requires forall i :: 0 <= i < |turns| ==> Sound(turns[i])
    ensures Messages(MadeFrom(c, n, turns, s)) == SentFrom(c, n, turns, s.ms, s.nudges)
    decreases |turns|
  {
    if turns != [] {
      MadeMore(c, n, turns, s);
      var sent := Sent(c, n, turns[0], s.ms);
      if GoesOn(c, n, turns[0], s.nudges) {
        OnlyAnswersGoOn(c, n, turns[0], s.nudges);
        SentMore(c, n, turns, s.ms, s.nudges);
        var next := From(After(c, n, turns[0], s.ms), NudgesAfter(c, n, turns[0], s.nudges));
        MadeIsSent(c, n + 1, turns[1..], next);
        MessagesConcat(n, sent, MadeFrom(c, n + 1, turns[1..], next));
      } else {
        SentLast(c, n, turns, s.ms, s.nudges);
        MessagesConcat(n, sent, []);
      }
    }
  }

  /** The request holds as many notes more than `base` as were added up to its iteration. */
  predicate Noted(c: Setup, m: Made, base: int) {
    Notes(m.ms) == base + Added(c, m.n)
  }

  /** The same of the conversation with which iteration n starts. */
  predicate StartNoted(c: Setup, n: nat, s: From, base: int) {
    n >= 1 && Notes(s.ms) == base + Added(c, n - 1)
  }

  lemma {:induction false} StepNoted(c: Setup, n: nat, t: Turn, s: From, base: int)
    requires StartNoted(c, n, s, base) && Sound(t)
    ensures var r := StepOf(c, n, t, s);
            && (forall i :: 0 <= i < |r.made| ==> Noted(c, r.made[i], base))
            && (r.next.Some? ==> StartNoted(c, n + 1, r.next.value, base))
  {
    RequestNotes(c, n, t, s.ms);
    if Final(t).Answered? { ReplyAddsNoNote(c, n, t, s.ms); }
  }

  lemma {:induction false} AllNoted(c: Setup, turns: seq<Turn>, s: From, base: int)
    requires StartNoted(c, 1, s, base) && forall i :: 0 <= i < |turns| ==> Sound(turns[i])
    ensures forall i :: 0 <= i < |MadeFrom(c, 1, turns, s)| ==> Noted(c, MadeFrom(c, 1, turns, s)[i], base)
  {
    var step := (m: nat, t: Turn, x: From) => StepOf(c, m, t, x);
    var inv := (m: nat, x: From) => StartNoted(c, m, x, base);
    var ok := (m: Made) => Noted(c, m, base);
    var good := (t: Turn) => Sound(t);
    forall m: nat, t: Turn, x: From | inv(m, x) && good(t)
      ensures StepKeeps(step, inv, ok, m, t, x)
    {
      StepNoted(c, m, t, x, base);
    }
    TraceKeeps(step, inv, good, ok, 1, turns, s);
    assert MadeFrom(c, 1, turns, s) == Trace(step, 1, turns, s);
  }

  /** In every run from iteration 1 on, the requests of the iterations before the last one in which
      text is not forced carry no limit note more than the conversation at the start, and all
      requests from that iteration on carry exactly one more; with a limit of 0 or 1 none does. */
  lemma {:induction false} NoteIsAddedOnce(c: Setup, turns: seq<Turn>, ms: seq<ChatMessage>)
    requires forall j :: 0 <= j < |turns| ==> Sound(turns[j])
    ensures var made := MadeFrom(c, 1, turns, From(ms, 0));
            && Messages(made) == SentFrom(c, 1, turns, ms, 0)
            && forall i :: 0 <= i < |made| ==>
                 Notes(made[i].ms) == Notes(ms) + if 2 <= c.max <= made[i].n + 1 then 1 else 0
  {
    MadeIsSent(c, 1, turns, From(ms, 0));
    AllNoted(c, turns, From(ms, 0), Notes(ms));
    var made := MadeFrom(c, 1, turns, From(ms, 0));
    assert forall i :: 0 <= i < |made| ==> Noted(c, made[i], Notes(ms));
  }
}
