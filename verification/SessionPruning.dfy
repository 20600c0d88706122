/** Pruning that overlaps other session-manager calls. The five lock sections of a prune
    (src/agent/session_manager.rs, prune_stale_sessions) are atomic steps of their own, among
    those of any number of calls and other prunes. */
module SessionPruning {
  import opened Wrappers
  import opened SessionManagers
  import opened SessionRaces
  import SessionRuns

  /** The section a prune enters next, with the stale users and the threads collected. */
  datatype PrunePc =
    | Finding
    | Collecting(stale: set<string>)
    | Removing(stale: set<string>, tids: set<ThreadId>)
    | Unmapping(stale: set<string>, tids: set<ThreadId>)
    | Dropping(tids: set<ThreadId>)
    | Pruned

  datatype System = System(calls: World, prunes: seq<PrunePc>)

  /** A section of a prune comes with the users it finds idle and the sessions it finds locked. */
  datatype Event =
    | CallEvent(e: SessionRaces.Event)
    | StartPrune
    | PruneSection(i: nat, idle: set<string>, contended: set<string>)

  const QUIET: System := System(IDLE, [])

  function PruneStep(s: State, p: PrunePc, idle: set<string>, contended: set<string>): (State, PrunePc) {
    match p
    case Finding =>
      var stale := idle * s.sessions.Keys;
      (s, if stale == {} then Pruned else Collecting(stale))
    case Collecting(stale) => (s, Removing(stale, StaleThreads(s, stale, contended)))
    case Removing(stale, tids) =>
      (s.(sessions := map user | user in s.sessions && user !in stale :: s.sessions[user]), Unmapping(stale, tids))
    case Unmapping(stale, tids) =>
      (s.(threadMap := map key | key in s.threadMap && key.user !in stale :: s.threadMap[key]), Dropping(tids))
    case Dropping(tids) =>
      (s.(undo := map tid | tid in s.undo && tid !in tids :: s.undo[tid]), Pruned)
    case Pruned => (s, p)
  }

  function Next(u: Uuids, w: System, e: Event): System {
    match e
    case CallEvent(call) => w.(calls := SessionRaces.Next(u, w.calls, call))
    case StartPrune => w.(prunes := w.prunes + [Finding])
    case PruneSection(i, idle, contended) =>
      if i < |w.prunes| then
        var (s1, p) := PruneStep(w.calls.s, w.prunes[i], idle, contended);
        System(w.calls.(s := s1), w.prunes[i := p])
      else w
  }

  function Run(u: Uuids, w: System, es: seq<Event>): System
    decreases |es|
  {
    if es == [] then w else Run(u, Next(u, w, es[0]), es[1..])
  }

  lemma {:induction false} RunConcat(u: Uuids, w: System, a: seq<Event>, b: seq<Event>)
    ensures Run(u, w, a + b) == Run(u, Run(u, w, a), b)
    decreases |a|
  {
    if a == [] {
      assert a + b == b;
    } else {
      assert (a + b)[1..] == a[1..] + b;
      RunConcat(u, Next(u, w, a[0]), a[1..], b);
    }
  }

  lemma {:induction false} TwoSteps(u: Uuids, w: System, a: Event, b: Event)
    ensures Run(u, w, [a, b]) == Next(u, Next(u, w, a), b)
  {
    var w1 := Next(u, w, a);
    assert [a, b][1..] == [b] && [b][1..] == [];
    assert Run(u, w1, [b]) == Run(u, Next(u, w1, b), []);
  }

  lemma {:induction false} ThreeSteps(u: Uuids, w: System, a: Event, b: Event, c: Event)
    ensures Run(u, w, [a, b, c]) == Next(u, Next(u, Next(u, w, a), b), c)
  {
    var w1 := Next(u, w, a);
    TwoSteps(u, w1, b, c);
    assert [a, b, c][1..] == [b, c];
  }

  // ---- a prune that runs alone ----

  /** With nobody in between, the five sections do what the whole prune does. */
  lemma {:induction false} PruneAlone(
    u: Uuids, w: System, i: nat, idle: set<string>, contended: set<string>)
    requires i < |w.prunes| && w.prunes[i] == Finding
    ensures var section := PruneSection(i, idle, contended);
            var end := Run(u, w, [section, section, section, section, section]);
            && end.prunes == w.prunes[i := Pruned]
            && end.calls == w.calls.(s := Prune(w.calls.s, idle * w.calls.s.sessions.Keys, contended))
  {
    var section, s, stale := PruneSection(i, idle, contended), w.calls.s, idle * w.calls.s.sessions.Keys;
    var w1 := Next(u, w, section);
    var w2 := Next(u, w1, section);
    var w3 := Next(u, w2, section);
    var w4 := Next(u, w3, section);
    var w5 := Next(u, w4, section);
    FiveSteps(u, w, section);
    if stale == {} {
      PruneOfNobody(s, contended);
      assert w1.prunes == w.prunes[i := Pruned] && w1.calls == w.calls;
      assert w2 == w1 && w3 == w1 && w4 == w1;
    } else {
      assert w5.prunes == w.prunes[i := Pruned];
    }
  }

  lemma {:induction false} FiveSteps(u: Uuids, w: System, e: Event)
    ensures Run(u, w, [e, e, e, e, e]) == Next(u, Next(u, Next(u, Next(u, Next(u, w, e), e), e), e), e)
  {
    ThreeSteps(u, w, e, e, e);
    RunConcat(u, w, [e, e, e], [e, e]);
    assert [e, e, e] + [e, e] == [e, e, e, e, e];
    TwoSteps(u, Next(u, Next(u, Next(u, w, e), e), e), e, e);
  }

  lemma {:induction false} PruneOfNobody(s: State, contended: set<string>)
    ensures Prune(s, {}, contended) == s
  {
    var t := Prune(s, {}, contended);
    assert t.sessions == s.sessions && t.threadMap == s.threadMap && t.undo == s.undo;
  }

  // ---- sessions lost on the way ----

  /** The section removes the session of this user. */
  predicate RemovesSession(w: System, e: Event, user: string) {
    && e.PruneSection? && e.i < |w.prunes| && w.prunes[e.i].Removing?
    && user in w.prunes[e.i].stale && user in w.calls.s.sessions
  }

  /** A call is left with a session that is no longer tracked exactly by the section of a prune
      that removes the sessions, when its user is among them. */
  lemma {:induction false} SessionLostExactlyWhen(u: Uuids, w: System, e: Event, i: nat)
    requires i < |w.calls.tasks| && Held(w.calls.tasks[i].pc).Some? && HoldsTracked(w.calls.s, w.calls.tasks[i])
    ensures var after := Next(u, w, e).calls;
            i < |after.tasks| && (!HoldsTracked(after.s, after.tasks[i])
                                  <==> RemovesSession(w, e, UserOf(w.calls.tasks[i].call)))
  {
    match e
    case CallEvent(call) =>
      EveryStepGrows(u, w.calls, call);
      if call == Step(i) { TaskHoldsTracked(u, w.calls.s, w.calls.tasks[i]); }
    case StartPrune =>
    case PruneSection(_, _, _) =>
  }

  // ---- mappings of users without a session ----

  ghost predicate Stray(s: State, key: Key) {
    key in s.threadMap && key.user !in s.sessions
  }

  /** The key for which a section of a call writes a mapping. */
  function Writes(u: Uuids, s: State, task: Task): Option<Key> {
    match task.call
    case ResolveCall(key) =>
      if task.pc.Mapping? || (task.pc.AdoptWrite? && !Mapped(s, task.pc.uuid)) then Some(key) else None
    case RegisterCall(user, channel, tid, _) =>
      if task.pc.RegisterMap? then Some(RegisterKey(u, user, channel, tid)) else None
    case _ => None
  }

  predicate Gains(s: State, t: State, wrote: Option<Key>, key: Key) {
    && (key in t.threadMap <==> key in s.threadMap || wrote == Some(key))
    && (wrote.Some? ==> t.sessions == s.sessions)
  }

  lemma {:induction false} ResolveMaps(u: Uuids, s: State, task: Task, key: Key)
    requires task.call.ResolveCall?
    ensures Gains(s, ResolveStep(u, s, task.call.key, task.pc).0, Writes(u, s, task), key)
  {
    var own := task.call.key;
    var t := ResolveStep(u, s, own, task.pc).0;
    match task.pc
    case AdoptWrite(_, uuid) => assert t == if Mapped(s, uuid) then s else MapThread(s, own, uuid);
    case Mapping(_, tid) => assert t == MapThread(s, own, tid);
    case AdoptUndo(_, tid) => assert t == EnsureUndo(s, tid);
    case MakingUndo(_, tid) => assert t == NewUndo(s, tid);
    case Creating(sid) => assert t == CreateThread(s, sid).0;
    case _ => assert t == s;
  }

  lemma {:induction false} RegisterMaps(u: Uuids, s: State, task: Task, key: Key)
    requires task.call.RegisterCall?
    ensures Gains(s, RegisterStep(u, s, task.call, task.pc).0, Writes(u, s, task), key)
  {
  }

  /** A section adds to the mapped keys at most the one it writes, and then tracks no session. */
  lemma {:induction false} SectionMaps(u: Uuids, s: State, task: Task, key: Key)
    ensures Gains(s, TaskStep(u, s, task).0, Writes(u, s, task), key)
  {
    if task.pc.SessionRead? || task.pc.SessionWrite? {
      assert SessionStep(s, task).0.threadMap == s.threadMap;
    } else {
      match task.call
      case GetCall(_) =>
      case ResolveCall(_) => ResolveMaps(u, s, task, key);
      case RegisterCall(_, _, _, _) => RegisterMaps(u, s, task, key);
      case UndoCall(tid) => assert UndoStep(s, tid, task.pc).0.threadMap == s.threadMap;
    }
  }

  /** A call writes a mapping for a key whose user has no session. */
  predicate WritesLate(u: Uuids, w: System, e: Event, key: Key) {
    && e.CallEvent? && e.e.Step? && e.e.i < |w.calls.tasks|
    && Writes(u, w.calls.s, w.calls.tasks[e.e.i]) == Some(key) && key.user !in w.calls.s.sessions
  }

  lemma {:induction false} CallStraysWhen(u: Uuids, w: System, i: nat, key: Key)
    requires i < |w.calls.tasks| && !Stray(w.calls.s, key)
    ensures var e := CallEvent(Step(i)); Stray(Next(u, w, e).calls.s, key) <==> WritesLate(u, w, e, key)
  {
    var s, task := w.calls.s, w.calls.tasks[i];
    TaskGrows(u, s, task);
    SectionMaps(u, s, task, key);
    assert Next(u, w, CallEvent(Step(i))).calls.s == TaskStep(u, s, task).0;
  }

  lemma {:induction false} SectionUnmaps(s: State, p: PrunePc, idle: set<string>, contended: set<string>, key: Key)
    ensures key in PruneStep(s, p, idle, contended).0.threadMap <==> key in s.threadMap && !Removes(p, key.user)
  {
  }

  lemma {:induction false} SectionRemoves(
    s: State, p: PrunePc, idle: set<string>, contended: set<string>, user: string)
    ensures user in PruneStep(s, p, idle, contended).0.sessions
       <==> user in s.sessions && !(p.Removing? && user in p.stale)
  {
  }

  lemma {:induction false} PruneStraysWhen(
    u: Uuids, w: System, i: nat, idle: set<string>, contended: set<string>, key: Key)
    requires i < |w.prunes| && !Stray(w.calls.s, key)
    ensures var e := PruneSection(i, idle, contended);
            Stray(Next(u, w, e).calls.s, key) <==> RemovesSession(w, e, key.user) && key in w.calls.s.threadMap
  {
    SectionUnmaps(w.calls.s, w.prunes[i], idle, contended, key);
    SectionRemoves(w.calls.s, w.prunes[i], idle, contended, key.user);
    ghost var t := PruneStep(w.calls.s, w.prunes[i], idle, contended).0;
    assert Next(u, w, PruneSection(i, idle, contended)).calls.s == t;
  }

  /** The remaining events leave the two maps alone. */
  predicate Moves(w: System, e: Event) {
    (e.CallEvent? && e.e.Step? && e.e.i < |w.calls.tasks|) || (e.PruneSection? && e.i < |w.prunes|)
  }

  lemma {:induction false} OthersKeepMaps(u: Uuids, w: System, e: Event)
    requires !Moves(w, e)
    ensures SameMaps(w.calls.s, Next(u, w, e).calls.s)
    ensures w.calls.tasks <= Next(u, w, e).calls.tasks && w.prunes <= Next(u, w, e).prunes
  {
    if e.CallEvent? { OtherCallKeepsMaps(u, w.calls, e.e); }
  }

  predicate SameMaps(s: State, t: State) {
    t.threadMap == s.threadMap && t.sessions == s.sessions
  }

  lemma {:induction false} OtherCallKeepsMaps(u: Uuids, w: World, e: SessionRaces.Event)
    requires !(e.Step? && e.i < |w.tasks|)
    ensures SameMaps(w.s, SessionRaces.Next(u, w, e).s) && w.tasks <= SessionRaces.Next(u, w, e).tasks
  {
    match e
    case Start(_) =>
    case Step(_) =>
    case Create(sid) => assert SameMaps(w.s, CreateThread(w.s, sid).0);
    case Insert(sid, tid) => assert SameMaps(w.s, SessionRuns.InsertThread(w.s, sid, tid));
    case Drop(sid, tid) => assert SameMaps(w.s, SessionRuns.DropThread(w.s, sid, tid));
  }

  /** A mapping comes to belong to a user without a session exactly when a call writes it after
      the user's session has gone, or before a registration tracks one, or when a prune removes
      the session under it. */
  lemma {:induction false} StraysExactlyWhen(u: Uuids, w: System, e: Event, key: Key)
    requires !Stray(w.calls.s, key)
    ensures Stray(Next(u, w, e).calls.s, key)
       <==> WritesLate(u, w, e, key) || (RemovesSession(w, e, key.user) && key in w.calls.s.threadMap)
  {
    if !Moves(w, e) { OthersKeepMaps(u, w, e); }
    else if e.CallEvent? { CallStraysWhen(u, w, e.e.i, key); }
    else { PruneStraysWhen(u, w, e.i, e.idle, e.contended, key); }
  }

  // ---- runs whose prunes spare users at work ----

  /** A resolution that holds its session and may still write its mapping. */
  predicate AtWork(task: Task) {
    task.call.ResolveCall?
    && (task.pc.Lookup? || task.pc.Elsewhere? || task.pc.Contains? || task.pc.AdoptWrite?
        || task.pc.Creating? || task.pc.Mapping?)
  }

  /** The section does not remove the session of a user with a resolution at work. */
  predicate Spares(w: System, e: Event) {
    forall i :: 0 <= i < |w.calls.tasks| && AtWork(w.calls.tasks[i]) ==>
      !RemovesSession(w, e, UserOf(w.calls.tasks[i].call))
  }

  predicate SparingRun(u: Uuids, w: System, es: seq<Event>)
    decreases |es|
  {
    es != [] ==> Spares(w, es[0]) && SparingRun(u, Next(u, w, es[0]), es[1..])
  }

  ghost predicate WorkersTracked(w: System) {
    forall i :: 0 <= i < |w.calls.tasks| && AtWork(w.calls.tasks[i]) ==> HoldsTracked(w.calls.s, w.calls.tasks[i])
  }

  /** A prune is about to remove the user's mappings. */
  predicate PruneAhead(w: System, user: string) {
    exists i :: 0 <= i < |w.prunes| && Removes(w.prunes[i], user)
  }

  predicate Removes(p: PrunePc, user: string) {
    p.Unmapping? && user in p.stale
  }

  /** A registration is about to track a session of the user. */
  predicate RegisterAhead(w: System, user: string) {
    exists i :: 0 <= i < |w.calls.tasks| && Registers(w.calls.tasks[i], user)
  }

  predicate Registers(task: Task, user: string) {
    task.call.RegisterCall? && task.call.user == user && (task.pc.RegisterUndo? || task.pc.RegisterSession?)
  }

  /** Every stray mapping is about to go, or its user about to be tracked. */
  ghost predicate Explained(w: System, key: Key) {
    Stray(w.calls.s, key) ==> PruneAhead(w, key.user) || RegisterAhead(w, key.user)
  }

  ghost predicate SparingInv(w: System) {
    WorkersTracked(w) && forall key :: Explained(w, key)
  }

  lemma {:induction false} WorkersStep(u: Uuids, w: System, e: Event)
    requires WorkersTracked(w) && Spares(w, e)
    ensures WorkersTracked(Next(u, w, e))
  {
    var after := Next(u, w, e).calls;
    forall i | 0 <= i < |after.tasks| && AtWork(after.tasks[i])
      ensures HoldsTracked(after.s, after.tasks[i])
    {
      if i < |w.calls.tasks| {
        if e == CallEvent(Step(i)) { TaskBecomesTracked(u, w.calls.s, w.calls.tasks[i]); }
        else { SessionLostExactlyWhen(u, w, e, i); }
      }
    }
  }

  /** A resolution at work after a section was at work before it, or has just got its session. */
  lemma {:induction false} TaskBecomesTracked(u: Uuids, s: State, task: Task)
    requires AtWork(task) ==> HoldsTracked(s, task)
    ensures var (s1, pc) := TaskStep(u, s, task);
            var moved := task.(pc := pc);
            AtWork(moved) ==> HoldsTracked(s1, moved)
  {
    if AtWork(task) { TaskHoldsTracked(u, s, task); }
  }

  lemma {:induction false} SectionExplained(u: Uuids, w: System, i: nat, key: Key)
    requires i < |w.calls.tasks| && WorkersTracked(w) && Explained(w, key)
    ensures Explained(Next(u, w, CallEvent(Step(i))), key)
  {
    var e, task := CallEvent(Step(i)), w.calls.tasks[i];
    var after := Next(u, w, e);
    if Stray(after.calls.s, key) {
      if Stray(w.calls.s, key) {
        EveryStepGrows(u, w.calls, Step(i));
        KeepsAhead(u, w, i, key.user);
      } else {
        StraysExactlyWhen(u, w, e, key);
        assert task.call.RegisterCall?;
        assert Registers(after.calls.tasks[i], key.user);
      }
    }
  }

  /** A prune or registration ahead stays ahead while a call moves, until its user is tracked. */
  lemma {:induction false} KeepsAhead(u: Uuids, w: System, i: nat, user: string)
    requires i < |w.calls.tasks| && (PruneAhead(w, user) || RegisterAhead(w, user))
    requires user !in Next(u, w, CallEvent(Step(i))).calls.s.sessions
    ensures var after := Next(u, w, CallEvent(Step(i))); PruneAhead(after, user) || RegisterAhead(after, user)
  {
    var after := Next(u, w, CallEvent(Step(i)));
    if PruneAhead(w, user) {
      assert after.prunes == w.prunes;
    } else {
      var j :| 0 <= j < |w.calls.tasks| && Registers(w.calls.tasks[j], user);
      assert Registers(after.calls.tasks[j], user);
    }
  }

  lemma {:induction false} PruneExplained(
    u: Uuids, w: System, i: nat, idle: set<string>, contended: set<string>, key: Key)
    requires i < |w.prunes| && Explained(w, key)
    ensures Explained(Next(u, w, PruneSection(i, idle, contended)), key)
  {
    var e := PruneSection(i, idle, contended);
    var after := Next(u, w, e);
    assert after.calls.tasks == w.calls.tasks;
    if Stray(after.calls.s, key) {
      if !Stray(w.calls.s, key) {
        StraysExactlyWhen(u, w, e, key);
        assert Removes(after.prunes[i], key.user);
      } else if PruneAhead(w, key.user) {
        var j :| 0 <= j < |w.prunes| && Removes(w.prunes[j], key.user);
        assert Removes(after.prunes[j], key.user);
      } else {
        var j :| 0 <= j < |w.calls.tasks| && Registers(w.calls.tasks[j], key.user);
        assert Registers(after.calls.tasks[j], key.user);
      }
    }
  }

  lemma {:induction false} OtherExplained(u: Uuids, w: System, e: Event, key: Key)
    requires Explained(w, key) && !Moves(w, e)
    ensures Explained(Next(u, w, e), key)
  {
    var after := Next(u, w, e);
    OthersKeepMaps(u, w, e);
    if Stray(after.calls.s, key) {
      if PruneAhead(w, key.user) {
        var j :| 0 <= j < |w.prunes| && Removes(w.prunes[j], key.user);
        assert Removes(after.prunes[j], key.user);
      } else {
        var j :| 0 <= j < |w.calls.tasks| && Registers(w.calls.tasks[j], key.user);
        assert Registers(after.calls.tasks[j], key.user);
      }
    }
  }

  lemma {:induction false} SparingStep(u: Uuids, w: System, e: Event)
    requires SparingInv(w) && Spares(w, e)
    ensures SparingInv(Next(u, w, e))
  {
    WorkersStep(u, w, e);
    forall key
      ensures Explained(Next(u, w, e), key)
    {
      assert Explained(w, key);
      if !Moves(w, e) { OtherExplained(u, w, e, key); }
      else if e.CallEvent? { SectionExplained(u, w, e.e.i, key); }
      else { PruneExplained(u, w, e.i, e.idle, e.contended, key); }
    }
  }

  lemma {:induction false} SparingRunKeeps(u: Uuids, w: System, es: seq<Event>)
    requires SparingInv(w) && SparingRun(u, w, es)
    ensures SparingInv(Run(u, w, es))
    decreases |es|
  {
    if es != [] {
      SparingStep(u, w, es[0]);
      SparingRunKeeps(u, Next(u, w, es[0]), es[1..]);
    }
  }

  /** If no prune removes the session of a user with a resolution at work, then at every moment
      of every run a mapping of a user without a session is one that a prune is about to remove,
      or that a registration is about to give its session; and a resolution that is at work
      holds the tracked session. */
  lemma {:induction false} SparingRunsLeaveNoStrays(u: Uuids, es: seq<Event>, key: Key)
    requires SparingRun(u, QUIET, es)
    ensures var w := Run(u, QUIET, es);
            && (key in w.calls.s.threadMap ==>
                  key.user in w.calls.s.sessions || PruneAhead(w, key.user) || RegisterAhead(w, key.user))
            && WorkersTracked(w)
  {
    SparingRunKeeps(u, QUIET, es);
    assert Explained(Run(u, QUIET, es), key);
  }

  // ---- what goes wrong otherwise ----

  /** The rest of the prune first, then the rest of the resolution. */
  function Overtaking(p: nat, i: nat): seq<Event> {
    [PruneSection(p, {}, {}), PruneSection(p, {}, {}), PruneSection(p, {}, {})]
    + [CallEvent(Step(i)), CallEvent(Step(i)), CallEvent(Step(i))]
  }

  /** In every world: a prune that overtakes a resolution about to make its thread leaves the key
      mapped to that thread while its user has no session, and the next resolution of the key
      returns another session and another thread. */
  lemma {:induction false} OvertakenThreadIsLost(u: Uuids, w: System, p: nat, i: nat, key: Key, sid: SessionId)
    requires p < |w.prunes| && w.prunes[p].Removing? && key.user in w.prunes[p].stale
    requires i < |w.calls.tasks| && w.calls.tasks[i] == Task(ResolveCall(key), Creating(sid)) && sid < w.calls.s.next
    ensures var end, tid := Run(u, w, Overtaking(p, i)), w.calls.s.next;
            && |end.prunes| == |w.prunes| && end.prunes[p] == Pruned
            && |end.calls.tasks| == |w.calls.tasks| && end.calls.tasks[i].pc == GotThread(sid, tid)
            && Stray(end.calls.s, key) && end.calls.s.threadMap[key] == tid
            && var (_, sid2, tid2) := Resolve(u, end.calls.s, key); sid2 != sid && tid2 != tid
  {
    var a, b := PruneSection(p, {}, {}), CallEvent(Step(i));
    RunConcat(u, w, [a, a, a], [b, b, b]);
    ThreeSteps(u, w, a, a, a);
    var w1 := Next(u, w, a);
    var w2 := Next(u, w1, a);
    var w3 := Next(u, w2, a);
    assert w3.prunes[p] == Pruned && w3.calls.tasks == w.calls.tasks && w3.calls.s.next == w.calls.s.next;
    assert key.user !in w3.calls.s.sessions;
    ThreeSteps(u, w3, b, b, b);
    var w4 := Next(u, w3, b);
    var w5 := Next(u, w4, b);
    var w6 := Next(u, w5, b);
    var tid := w.calls.s.next;
    assert w4.calls.tasks[i].pc == Mapping(sid, tid) && w5.calls.tasks[i].pc == MakingUndo(sid, tid);
    assert w6.calls.s.sessions == w3.calls.s.sessions && w6.calls.s.next == tid + 2;
    NewUserGetsNewThread(u, w6.calls.s, key);
  }

  /** A user without a session gets a new session and a new thread in it. */
  lemma {:induction false} NewUserGetsNewThread(u: Uuids, s: State, key: Key)
    requires key.user !in s.sessions
    ensures var (_, sid, tid) := Resolve(u, s, key); sid == s.next && tid == s.next + 1
  {
    var (s1, sid) := GetOrCreate(s, key.user);
    assert ThreadsOf(s1, sid) == {};
  }

  function Arrival(user: string): seq<Event> {
    [CallEvent(Start(GetCall(user))), CallEvent(Step(0)), CallEvent(Step(0))]
  }

  function Interrupted(user: string): seq<Event> {
    [StartPrune, PruneSection(0, {user}, {}), PruneSection(0, {}, {})]
  }

  function Return(key: Key): seq<Event> {
    [CallEvent(Start(ResolveCall(key))), CallEvent(Step(1)), CallEvent(Step(1))]
  }

  /** Such a world is reached: a user returns while the prune that found him idle goes on. */
  lemma {:induction false} PruneOvertakesResolution(u: Uuids, user: string, channel: string)
    ensures var key := Key(user, channel, None);
            var w := Run(u, QUIET, Arrival(user) + Interrupted(user) + Return(key));
            && w.prunes == [Removing({user}, {})] && |w.calls.tasks| == 2
            && w.calls.tasks[1] == Task(ResolveCall(key), Creating(0)) && w.calls.s.next == 1
  {
    var key := Key(user, channel, None);
    var a0 := Next(u, QUIET, CallEvent(Start(GetCall(user))));
    var a1 := Next(u, a0, CallEvent(Step(0)));
    var a2 := Next(u, a1, CallEvent(Step(0)));
    assert a2.calls.tasks == [Task(GetCall(user), GotSession(0))];
    assert a2.calls.s.sessions == map[user := 0] && a2.calls.s.threads == map[0 := {}] && a2.calls.s.next == 1;
    var a3 := Next(u, a2, StartPrune);
    var a4 := Next(u, a3, PruneSection(0, {user}, {}));
    assert {user} * a3.calls.s.sessions.Keys == {user};
    var a5 := Next(u, a4, PruneSection(0, {}, {}));
    assert StaleThreads(a4.calls.s, {user}, {}) == {};
    assert a5.prunes == [Removing({user}, {})] && a5.calls == a2.calls;
    var a6 := Next(u, a5, CallEvent(Start(ResolveCall(key))));
    var a7 := Next(u, a6, CallEvent(Step(1)));
    assert a7.calls.tasks[1] == Task(ResolveCall(key), Lookup(0));
    var a8 := Next(u, a7, CallEvent(Step(1)));
    ThreeSteps(u, QUIET, CallEvent(Start(GetCall(user))), CallEvent(Step(0)), CallEvent(Step(0)));
    ThreeSteps(u, a2, StartPrune, PruneSection(0, {user}, {}), PruneSection(0, {}, {}));
    ThreeSteps(u, a5, CallEvent(Start(ResolveCall(key))), CallEvent(Step(1)), CallEvent(Step(1)));
    RunConcat(u, QUIET, Arrival(user), Interrupted(user));
    RunConcat(u, QUIET, Arrival(user) + Interrupted(user), Return(key));
  }
}
