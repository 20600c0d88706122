/** Emergency compaction of the message list after a context-length error
    (src/agent/dispatcher.rs, `compact_messages_for_retry`). */
module RetryCompaction {
  import opened Wrappers
  import opened Chat

  const NOTE: string := "[Note: Earlier conversation history was automatically compacted to fit within "
    + "the context window. The most recent exchange is preserved below.]"

  function LastUser(ms: seq<ChatMessage>): (r: Option<nat>)
    ensures r.Some? ==> r.value < |ms| && ms[r.value].role == User
    ensures forall i :: (if r.Some? then r.value + 1 else 0) <= i < |ms| ==> ms[i].role != User
  {
    if ms == [] then None
    else if ms[|ms| - 1].role == User then Some(|ms| - 1)
    else LastUser(ms[..|ms| - 1])
  }

  function Systems(ms: seq<ChatMessage>): seq<ChatMessage> {
    if ms == [] then []
    else Systems(ms[..|ms| - 1]) + if ms[|ms| - 1].role == System then [ms[|ms| - 1]] else []
  }

  function NonSystems(ms: seq<ChatMessage>): seq<ChatMessage> {
    if ms == [] then []
    else NonSystems(ms[..|ms| - 1]) + if ms[|ms| - 1].role != System then [ms[|ms| - 1]] else []
  }

  function Compacted(ms: seq<ChatMessage>): seq<ChatMessage> {
    match LastUser(ms)
    case Some(idx) =>
      Systems(ms[..idx]) + (if idx > 0 then [SystemMessage(NOTE)] else []) + ms[idx..]
    case None => Systems(ms) + NonSystems(ms)
  }

  method FindLastUser(ms: seq<ChatMessage>) returns (r: Option<nat>)
    ensures r == LastUser(ms)
  {
    var i := |ms|;
    while i > 0
      invariant 0 <= i <= |ms|
      invariant LastUser(ms) == LastUser(ms[..i])
    {
      if ms[i - 1].role == User {
        return Some(i - 1);
      }
      assert ms[..i][..i - 1] == ms[..i - 1];
      i := i - 1;
    }
    return None;
  }

  method CompactMessagesForRetry(ms: seq<ChatMessage>) returns (compacted: seq<ChatMessage>)
    ensures compacted == Compacted(ms)
  {
    var lastUser := FindLastUser(ms);
    if lastUser.Some? {
      var idx := lastUser.value;
      compacted := KeepSystems(ms[..idx]);
      if idx > 0 {
        compacted := compacted + [SystemMessage(NOTE)];
      } else {
        assert compacted + [] == compacted;
      }
      compacted := compacted + ms[idx..];
    } else {
      compacted := KeepSystems(ms);
      var others := KeepOthers(ms);
      compacted := compacted + others;
    }
  }

  method KeepSystems(ms: seq<ChatMessage>) returns (kept: seq<ChatMessage>)
    ensures kept == Systems(ms)
  {
    kept := [];
    for i := 0 to |ms|
      invariant kept == Systems(ms[..i])
    {
      assert ms[..i + 1][..i] == ms[..i];
      if ms[i].role == System {
        kept := kept + [ms[i]];
      }
    }
    assert ms[..|ms|] == ms;
  }

  method KeepOthers(ms: seq<ChatMessage>) returns (kept: seq<ChatMessage>)
    ensures kept == NonSystems(ms)
  {
    kept := [];
    for i := 0 to |ms|
      invariant kept == NonSystems(ms[..i])
    {
      assert ms[..i + 1][..i] == ms[..i];
      if ms[i].role != System {
        kept := kept + [ms[i]];
      }
    }
    assert ms[..|ms|] == ms;
  }

  // ---- what it keeps ----

  lemma {:induction false} SystemsConcat(a: seq<ChatMessage>, b: seq<ChatMessage>)
    ensures Systems(a + b) == Systems(a) + Systems(b)
  {
    if b == [] {
      assert a + b == a;
    } else {
      SystemsConcat(a, b[..|b| - 1]);
      assert (a + b)[..|a + b| - 1] == a + b[..|b| - 1];
    }
  }

  lemma {:induction false} SystemsFixed(ms: seq<ChatMessage>)
    ensures Systems(Systems(ms)) == Systems(ms) && Systems(NonSystems(ms)) == []
  {
    if ms != [] {
      var last := ms[|ms| - 1];
      SystemsFixed(ms[..|ms| - 1]);
      SystemsConcat(Systems(ms[..|ms| - 1]), if last.role == System then [last] else []);
      SystemsConcat(NonSystems(ms[..|ms| - 1]), if last.role != System then [last] else []);
    }
  }

  lemma {:induction false} PartsCount(ms: seq<ChatMessage>)
    ensures |Systems(ms)| + |NonSystems(ms)| == |ms|
  {
    if ms != [] { PartsCount(ms[..|ms| - 1]); }
  }

  /** Every system message survives once and in order, with at most one note among them;
      from the last user message on nothing changes. */
  lemma {:induction false} KeepsSystemsAndSuffix(ms: seq<ChatMessage>)
    ensures LastUser(ms).None? ==> Systems(Compacted(ms)) == Systems(ms)
    ensures LastUser(ms).Some? ==>
              var idx, out := LastUser(ms).value, Compacted(ms);
              var note := if idx > 0 then [SystemMessage(NOTE)] else [];
              && Systems(ms) == Systems(ms[..idx]) + Systems(ms[idx..])
              && Systems(out) == Systems(ms[..idx]) + note + Systems(ms[idx..])
              && |ms| - idx <= |out| && out[|out| - (|ms| - idx)..] == ms[idx..]
  {
    if LastUser(ms).None? {
      SystemsConcat(Systems(ms), NonSystems(ms));
      SystemsFixed(ms);
    } else {
      var idx := LastUser(ms).value;
      var note := if idx > 0 then [SystemMessage(NOTE)] else [];
      assert ms == ms[..idx] + ms[idx..];
      SystemsConcat(ms[..idx], ms[idx..]);
      SystemsFixed(ms[..idx]);
      SystemsConcat(Systems(ms[..idx]) + note, ms[idx..]);
      SystemsConcat(Systems(ms[..idx]), note);
    }
  }

  /** One message is kept by its role. */
  lemma {:induction false} PartsOfOne(m: ChatMessage)
    ensures Systems([m]) == if m.role == System then [m] else []
    ensures NonSystems([m]) == if m.role == System then [] else [m]
  {
    assert [m][..0] == [];
  }

  lemma {:induction false} NonSystemsOfSystems(ms: seq<ChatMessage>)
    ensures NonSystems(Systems(ms)) == [] && NonSystems(NonSystems(ms)) == NonSystems(ms)
  {
    if ms != [] {
      var rest, last := ms[..|ms| - 1], ms[|ms| - 1];
      NonSystemsOfSystems(rest);
      PartsOfOne(last);
      NonSystemsConcat(Systems(rest), [last]);
      NonSystemsConcat(NonSystems(rest), [last]);
      if last.role == System { assert Systems(ms) == Systems(rest) + [last] && NonSystems(ms) == NonSystems(rest); }
      else { assert Systems(ms) == Systems(rest) && NonSystems(ms) == NonSystems(rest) + [last]; }
    }
  }

  /** Of the other messages exactly those from the last user message on are kept, in order, and all
      of them when there is no user message. */
  lemma {:induction false} KeepsOthersFromLastUser(ms: seq<ChatMessage>)
    ensures NonSystems(Compacted(ms)) == NonSystems(if LastUser(ms).Some? then ms[LastUser(ms).value..] else ms)
  {
    match LastUser(ms)
    case Some(idx) =>
      var note := if idx > 0 then [SystemMessage(NOTE)] else [];
      NonSystemsOfSystems(ms[..idx]);
      PartsOfOne(SystemMessage(NOTE));
      NonSystemsConcat(Systems(ms[..idx]) + note, ms[idx..]);
      NonSystemsConcat(Systems(ms[..idx]), note);
    case None =>
      NonSystemsOfSystems(ms);
      NonSystemsConcat(Systems(ms), NonSystems(ms));
  }

  /** The list gets shorter exactly when at least two messages other than system messages
      precede the last user message; when none does, the note even makes it longer, unless
      the user message comes first. Without a user message the length stays. */
  lemma {:induction false} ShorterExactlyWhen(ms: seq<ChatMessage>)
    ensures LastUser(ms).None? ==> |Compacted(ms)| == |ms|
    ensures LastUser(ms).Some? ==>
              var idx := LastUser(ms).value;
              var dropped := |NonSystems(ms[..idx])|;
              && (|Compacted(ms)| < |ms| <==> dropped >= 2)
              && (|Compacted(ms)| > |ms| <==> dropped == 0 && idx > 0)
  {
    PartsCount(ms);
    if LastUser(ms).Some? { PartsCount(ms[..LastUser(ms).value]); }
  }

  // ---- the protocol ----

  predicate AllSystem(ms: seq<ChatMessage>) {
    forall i :: 0 <= i < |ms| ==> ms[i].role == System && ms[i].toolCalls.None?
  }

  lemma {:induction false} AllSystemProtocol(ms: seq<ChatMessage>)
    requires AllSystem(ms)
    ensures Protocol(ms)
  {
    if ms != [] { AllSystemProtocol(ms[1..]); }
  }

  lemma {:induction false} SystemsAreSystem(ms: seq<ChatMessage>)
    requires forall i :: 0 <= i < |ms| && ms[i].role == System ==> ms[i].toolCalls.None?
    ensures AllSystem(Systems(ms))
  {
    if ms != [] { SystemsAreSystem(ms[..|ms| - 1]); }
  }

  lemma {:induction false} SystemsDeclareNothing(ms: seq<ChatMessage>, i: nat)
    requires Protocol(ms) && i < |ms| && ms[i].role == System
    ensures ms[i].toolCalls.None?
    decreases |ms|
  {
    if ms[0].toolCalls.Some? {
      var n := 1 + |ms[0].toolCalls.value|;
      if 0 < i < n {
        assert ms[i] == ms[1..n][i - 1];
      } else if i >= n {
        SystemsDeclareNothing(ms[n..], i - n);
      }
    } else if i > 0 {
      SystemsDeclareNothing(ms[1..], i - 1);
    }
  }

  lemma {:induction false} NonSystemsConcat(a: seq<ChatMessage>, b: seq<ChatMessage>)
    ensures NonSystems(a + b) == NonSystems(a) + NonSystems(b)
  {
    if b == [] {
      assert a + b == a;
    } else {
      NonSystemsConcat(a, b[..|b| - 1]);
      assert (a + b)[..|a + b| - 1] == a + b[..|b| - 1];
    }
  }

  lemma {:induction false} NoSystems(ms: seq<ChatMessage>)
    requires forall i :: 0 <= i < |ms| ==> ms[i].role != System
    ensures NonSystems(ms) == ms
  {
    if ms != [] { NoSystems(ms[..|ms| - 1]); }
  }

  lemma {:induction false} NonSystemsProtocol(ms: seq<ChatMessage>)
    requires Protocol(ms)
    ensures Protocol(NonSystems(ms))
    decreases |ms|
  {
    if ms != [] {
      var n := if ms[0].toolCalls.Some? then 1 + |ms[0].toolCalls.value| else 1;
      NonSystemsProtocol(ms[n..]);
      GroupStays(ms, n);
    }
  }

  /** The first group of messages, in front of the others that stay. */
  lemma {:induction false} GroupStays(ms: seq<ChatMessage>, n: nat)
    requires ms != [] && Protocol(ms)
    requires n == (if ms[0].toolCalls.Some? then 1 + |ms[0].toolCalls.value| else 1) && Protocol(NonSystems(ms[n..]))
    ensures Protocol(NonSystems(ms))
  {
    var head, tail := ms[..n], ms[n..];
    assert ms == head + tail;
    NonSystemsConcat(head, tail);
    if ms[0].role == System {
      assert head == [ms[0]] && head[..0] == [];
      assert NonSystems(head) + NonSystems(tail) == NonSystems(tail);
    } else {
      HeadGroup(ms, n);
      NoSystems(head);
      ProtocolConcat(head, NonSystems(tail));
    }
  }

  lemma {:induction false} HeadGroup(ms: seq<ChatMessage>, n: nat)
    requires ms != [] && Protocol(ms) && ms[0].role != System
    requires n == if ms[0].toolCalls.Some? then 1 + |ms[0].toolCalls.value| else 1
    ensures n <= |ms| && Protocol(ms[..n]) && forall i :: 0 <= i < n ==> ms[i].role != System
  {
    var head := ms[..n];
    if ms[0].toolCalls.Some? {
      assert head[1..n] == ms[1..n] && head[n..] == [];
      forall i | 1 <= i < n ensures ms[i].role != System {
        assert ms[i] == ms[1..n][i - 1];
      }
    } else {
      assert head[1..] == [];
    }
  }

  /** A well-formed conversation stays well formed. */
  lemma {:induction false} KeepsProtocol(ms: seq<ChatMessage>)
    requires Protocol(ms)
    ensures Protocol(Compacted(ms))
  {
    forall i | 0 <= i < |ms| && ms[i].role == System ensures ms[i].toolCalls.None? {
      SystemsDeclareNothing(ms, i);
    }
    match LastUser(ms) {
      case Some(idx) =>
        var note := if idx > 0 then [SystemMessage(NOTE)] else [];
        assert ms == ms[..idx] + ms[idx..];
        ProtocolSplit(ms[..idx], ms[idx..]);
        SystemsAreSystem(ms[..idx]);
        AllSystemProtocol(Systems(ms[..idx]) + note);
        ProtocolConcat(Systems(ms[..idx]) + note, ms[idx..]);
      case None =>
        SystemsAreSystem(ms);
        AllSystemProtocol(Systems(ms));
        NonSystemsProtocol(ms);
        ProtocolConcat(Systems(ms), NonSystems(ms));
    }
  }
}
