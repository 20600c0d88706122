/** Undo managers while prunes overlap other calls (src/agent/session_manager.rs): when a mapped
    thread is left without one, and what that costs. */
module UndoPruning {
  import opened Wrappers
  import opened SessionManagers
  import opened SessionRaces
  import opened SessionPruning
  import P = SessionPruning
  import SessionRuns

  // ---- the step that loses an undo manager ----

  /** The section drops the undo manager of this thread. */
  predicate DropsUndo(w: System, e: P.Event, tid: ThreadId) {
    e.PruneSection? && e.i < |w.prunes| && w.prunes[e.i].Dropping? && tid in w.prunes[e.i].tids
  }

  lemma {:induction false} SectionKeepsUndo(u: Uuids, s: State, task: Task)
    ensures s.undo.Keys <= TaskStep(u, s, task).0.undo.Keys
  {
    if !task.pc.SessionRead? && !task.pc.SessionWrite? {
      match task.call
      case GetCall(_) =>
      case ResolveCall(key) => ResolveKeepsUndo(u, s, key, task.pc);
      case RegisterCall(_, _, _, _) => RegisterKeepsUndo(u, s, task.call, task.pc);
      case UndoCall(tid) => assert s.undo.Keys <= UndoStep(s, tid, task.pc).0.undo.Keys;
    }
  }

  lemma {:induction false} ResolveKeepsUndo(u: Uuids, s: State, key: Key, pc: Pc)
    ensures s.undo.Keys <= ResolveStep(u, s, key, pc).0.undo.Keys
  {
  }

  lemma {:induction false} RegisterKeepsUndo(u: Uuids, s: State, call: Call, pc: Pc)
    requires call.RegisterCall?
    ensures s.undo.Keys <= RegisterStep(u, s, call, pc).0.undo.Keys
  {
  }

  lemma {:induction false} SectionDropsUndo(
    s: State, p: PrunePc, idle: set<string>, contended: set<string>, tid: ThreadId)
    ensures tid in PruneStep(s, p, idle, contended).0.undo <==> tid in s.undo && !(p.Dropping? && tid in p.tids)
  {
  }

  lemma {:induction false} OtherCallKeepsUndo(u: Uuids, w: World, e: SessionRaces.Event)
    requires !(e.Step? && e.i < |w.tasks|)
    ensures SessionRaces.Next(u, w, e).s.undo == w.s.undo
  {
    match e
    case Start(_) =>
    case Step(_) =>
    case Create(sid) => assert CreateThread(w.s, sid).0.undo == w.s.undo;
    case Insert(sid, tid) => assert SessionRuns.InsertThread(w.s, sid, tid).undo == w.s.undo;
    case Drop(sid, tid) => assert SessionRuns.DropThread(w.s, sid, tid).undo == w.s.undo;
  }

  /** A thread loses its undo manager exactly by the last section of a prune that collected it. */
  lemma {:induction false} UndoLostExactlyWhen(u: Uuids, w: System, e: P.Event, tid: ThreadId)
    requires tid in w.calls.s.undo
    ensures tid !in P.Next(u, w, e).calls.s.undo <==> DropsUndo(w, e, tid)
  {
    match e
    case CallEvent(call) =>
      if call.Step? && call.i < |w.calls.tasks| { SectionKeepsUndo(u, w.calls.s, w.calls.tasks[call.i]); }
      else { OtherCallKeepsUndo(u, w.calls, call); }
    case StartPrune =>
    case PruneSection(i, idle, contended) =>
      if i < |w.prunes| { SectionDropsUndo(w.calls.s, w.prunes[i], idle, contended, tid); }
  }

  /** A key leads to the thread, and the thread has no undo manager. */
  ghost predicate Bare(s: State, tid: ThreadId) {
    Mapped(s, tid) && tid !in s.undo
  }

  /** The thread for which a section of a call writes a mapping. */
  function WritesTo(u: Uuids, s: State, task: Task): Option<ThreadId> {
    if Writes(u, s, task).None? then None
    else
      match task.pc
      case AdoptWrite(_, uuid) => Some(uuid)
      case Mapping(_, tid) => Some(tid)
      case _ => if task.call.RegisterCall? then Some(task.call.tid) else None
  }

  /** A call maps a key to a thread that has no undo manager yet. */
  predicate MapsBare(u: Uuids, w: System, e: P.Event, tid: ThreadId) {
    && e.CallEvent? && e.e.Step? && e.e.i < |w.calls.tasks|
    && WritesTo(u, w.calls.s, w.calls.tasks[e.e.i]) == Some(tid) && tid !in w.calls.s.undo
  }

  lemma {:induction false} MapThreadMaps(s: State, key: Key, other: ThreadId, tid: ThreadId)
    ensures Mapped(MapThread(s, key, other), other)
    ensures Mapped(MapThread(s, key, other), tid) ==> Mapped(s, tid) || tid == other
  {
    var t := MapThread(s, key, other);
    assert t.threadMap[key] == other;
    if Mapped(t, tid) {
      var k :| k in t.threadMap && t.threadMap[k] == tid;
      if k != key { assert s.threadMap[k] == tid; }
    }
  }

  /** What a section does to the threads that keys lead to. */
  ghost predicate MapsTo(s: State, t: State, wrote: Option<ThreadId>, tid: ThreadId) {
    && (Mapped(t, tid) ==> Mapped(s, tid) || wrote == Some(tid))
    && (wrote == Some(tid) ==> Mapped(t, tid) && t.undo == s.undo)
  }

  lemma {:induction false} ResolveMapsTo(u: Uuids, s: State, task: Task, tid: ThreadId)
    requires task.call.ResolveCall?
    ensures MapsTo(s, ResolveStep(u, s, task.call.key, task.pc).0, WritesTo(u, s, task), tid)
  {
    var own := task.call.key;
    var t := ResolveStep(u, s, own, task.pc).0;
    match task.pc
    case AdoptWrite(_, uuid) => if !Mapped(s, uuid) { MapThreadMaps(s, own, uuid, tid); }
    case Mapping(_, other) => MapThreadMaps(s, own, other, tid);
    case _ => assert t.threadMap == s.threadMap;
  }

  lemma {:induction false} RegisterMapsTo(u: Uuids, s: State, task: Task, tid: ThreadId)
    requires task.call.RegisterCall?
    ensures MapsTo(s, RegisterStep(u, s, task.call, task.pc).0, WritesTo(u, s, task), tid)
  {
    var call := task.call;
    if task.pc.RegisterMap? { MapThreadMaps(s, RegisterKey(u, call.user, call.channel, call.tid), call.tid, tid); }
    else { assert RegisterStep(u, s, call, task.pc).0.threadMap == s.threadMap; }
  }

  lemma {:induction false} SectionMapsTo(u: Uuids, s: State, task: Task, tid: ThreadId)
    ensures MapsTo(s, TaskStep(u, s, task).0, WritesTo(u, s, task), tid)
  {
    if task.pc.SessionRead? || task.pc.SessionWrite? {
      assert SessionStep(s, task).0.threadMap == s.threadMap;
    } else {
      match task.call
      case GetCall(_) =>
      case ResolveCall(_) => ResolveMapsTo(u, s, task, tid);
      case RegisterCall(_, _, _, _) => RegisterMapsTo(u, s, task, tid);
      case UndoCall(id) => assert UndoStep(s, id, task.pc).0.threadMap == s.threadMap;
    }
  }

  lemma {:induction false} CallBaresWhen(u: Uuids, w: System, i: nat, tid: ThreadId)
    requires i < |w.calls.tasks| && !Bare(w.calls.s, tid)
    ensures var e := CallEvent(Step(i)); Bare(P.Next(u, w, e).calls.s, tid) <==> MapsBare(u, w, e, tid)
  {
    var s, task := w.calls.s, w.calls.tasks[i];
    SectionMapsTo(u, s, task, tid);
    SectionKeepsUndo(u, s, task);
    assert P.Next(u, w, CallEvent(Step(i))).calls.s == TaskStep(u, s, task).0;
  }

  lemma {:induction false} PruneMapsLess(s: State, p: PrunePc, idle: set<string>, contended: set<string>, tid: ThreadId)
    ensures var t := PruneStep(s, p, idle, contended).0;
            (Mapped(t, tid) ==> Mapped(s, tid)) && (p.Dropping? ==> t.threadMap == s.threadMap)
  {
    var t := PruneStep(s, p, idle, contended).0;
    if p.Unmapping? {
      if Mapped(t, tid) {
        var k :| k in t.threadMap && t.threadMap[k] == tid;
        assert s.threadMap[k] == tid;
      }
    } else {
      assert t.threadMap == s.threadMap;
    }
  }

  lemma {:induction false} PruneBaresWhen(
    u: Uuids, w: System, i: nat, idle: set<string>, contended: set<string>, tid: ThreadId)
    requires i < |w.prunes| && !Bare(w.calls.s, tid)
    ensures var e := PruneSection(i, idle, contended);
            Bare(P.Next(u, w, e).calls.s, tid) <==> DropsUndo(w, e, tid) && Mapped(w.calls.s, tid)
  {
    PruneMapsLess(w.calls.s, w.prunes[i], idle, contended, tid);
    SectionDropsUndo(w.calls.s, w.prunes[i], idle, contended, tid);
    ghost var t := PruneStep(w.calls.s, w.prunes[i], idle, contended).0;
    assert P.Next(u, w, PruneSection(i, idle, contended)).calls.s == t;
  }

  lemma {:induction false} OthersBareNothing(u: Uuids, w: System, e: P.Event, tid: ThreadId)
    requires !Moves(w, e)
    ensures Bare(P.Next(u, w, e).calls.s, tid) <==> Bare(w.calls.s, tid)
  {
    OthersKeepMaps(u, w, e);
    if e.CallEvent? { OtherCallKeepsUndo(u, w.calls, e.e); }
  }

  /** A thread that keys lead to comes to be without an undo manager exactly when a call maps it
      before it makes one, or a prune drops the one it has. */
  lemma {:induction false} BareExactlyWhen(u: Uuids, w: System, e: P.Event, tid: ThreadId)
    requires !Bare(w.calls.s, tid)
    ensures Bare(P.Next(u, w, e).calls.s, tid)
       <==> MapsBare(u, w, e, tid) || (DropsUndo(w, e, tid) && Mapped(w.calls.s, tid))
  {
    if !Moves(w, e) { OthersBareNothing(u, w, e, tid); }
    else if e.CallEvent? { CallBaresWhen(u, w, e.e.i, tid); }
    else { PruneBaresWhen(u, w, e.i, e.idle, e.contended, tid); }
  }

  // ---- runs whose prunes spare mapped threads ----

  /** The section drops no undo manager of a thread that a key leads to. */
  predicate SparesUndo(w: System, e: P.Event) {
    e.PruneSection? && e.i < |w.prunes| && w.prunes[e.i].Dropping? ==>
      forall tid :: tid in w.prunes[e.i].tids ==> !Mapped(w.calls.s, tid)
  }

  predicate SparesUndoRun(u: Uuids, w: System, es: seq<P.Event>)
    decreases |es|
  {
    es != [] ==> SparesUndo(w, es[0]) && SparesUndoRun(u, P.Next(u, w, es[0]), es[1..])
  }

  /** The call makes the thread's undo manager next. */
  predicate MakesUndo(task: Task, tid: ThreadId) {
    match task.call
    case ResolveCall(_) => (task.pc.AdoptUndo? || task.pc.MakingUndo?) && task.pc.tid == tid
    case RegisterCall(_, _, t, _) => task.pc.RegisterUndo? && t == tid
    case _ => false
  }

  predicate UndoAhead(w: System, tid: ThreadId) {
    exists i :: 0 <= i < |w.calls.tasks| && MakesUndo(w.calls.tasks[i], tid)
  }

  ghost predicate Served(w: System, tid: ThreadId) {
    Bare(w.calls.s, tid) ==> UndoAhead(w, tid)
  }

  lemma {:induction false} MakesUndoMakes(u: Uuids, s: State, task: Task, tid: ThreadId)
    requires MakesUndo(task, tid)
    ensures tid in TaskStep(u, s, task).0.undo
  {
  }

  lemma {:induction false} MapsThenMakes(u: Uuids, s: State, task: Task, tid: ThreadId)
    requires WritesTo(u, s, task) == Some(tid)
    ensures MakesUndo(task.(pc := TaskStep(u, s, task).1), tid)
  {
  }

  lemma {:induction false} ServedStep(u: Uuids, w: System, e: P.Event, tid: ThreadId)
    requires Served(w, tid) && SparesUndo(w, e)
    ensures Served(P.Next(u, w, e), tid)
  {
    var after := P.Next(u, w, e);
    if Bare(after.calls.s, tid) {
      if Bare(w.calls.s, tid) {
        var i :| 0 <= i < |w.calls.tasks| && MakesUndo(w.calls.tasks[i], tid);
        if e == CallEvent(Step(i)) { MakesUndoMakes(u, w.calls.s, w.calls.tasks[i], tid); }
        else { assert MakesUndo(after.calls.tasks[i], tid); }
      } else {
        BareExactlyWhen(u, w, e, tid);
        MapsThenMakes(u, w.calls.s, w.calls.tasks[e.e.i], tid);
        assert MakesUndo(after.calls.tasks[e.e.i], tid);
      }
    }
  }

  lemma {:induction false} ServedRun(u: Uuids, w: System, es: seq<P.Event>, tid: ThreadId)
    requires Served(w, tid) && SparesUndoRun(u, w, es)
    ensures Served(P.Run(u, w, es), tid)
    decreases |es|
  {
    if es != [] {
      ServedStep(u, w, es[0], tid);
      ServedRun(u, P.Next(u, w, es[0]), es[1..], tid);
    }
  }

  /** If no prune drops the undo manager of a thread that a key leads to, then at every moment of
      every run each such thread has one, or a call is just about to make it. */
  lemma {:induction false} MappedThreadsAreServed(u: Uuids, es: seq<P.Event>, tid: ThreadId)
    requires SparesUndoRun(u, QUIET, es)
    ensures var w := P.Run(u, QUIET, es); Mapped(w.calls.s, tid) ==> tid in w.calls.s.undo || UndoAhead(w, tid)
  {
    ServedRun(u, QUIET, es, tid);
  }

  // ---- a thread that returns during the prune ----

  /** The prune unmaps, the whole registration, and the end of the prune. */
  function Returning(p: nat, i: nat): seq<P.Event> {
    [PruneSection(p, {}, {}), CallEvent(Step(i))] + [CallEvent(Step(i)), CallEvent(Step(i)), PruneSection(p, {}, {})]
  }

  lemma {:induction false} RestOfReturn(u: Uuids, w: System, p: nat, i: nat, call: Call)
    requires call.RegisterCall? && i < |w.calls.tasks| && w.calls.tasks[i] == Task(call, RegisterUndo)
    requires p < |w.prunes| && w.prunes[p].Dropping? && call.tid in w.prunes[p].tids && call.tid in w.calls.s.undo
    ensures var a, b := PruneSection(p, {}, {}), CallEvent(Step(i));
            var end := P.Run(u, w, [b, b, a]).calls.s;
            && end.threadMap == w.calls.s.threadMap && call.user in end.sessions
            && call.tid !in end.undo && end.next == w.calls.s.next
  {
    var a, b := PruneSection(p, {}, {}), CallEvent(Step(i));
    ThreeSteps(u, w, b, b, a);
    var w1 := P.Next(u, w, b);
    assert w1.calls.tasks[i] == Task(call, RegisterSession) && w1.calls.s == w.calls.s && w1.prunes == w.prunes;
    var w2 := P.Next(u, w1, b);
    assert call.user in w2.calls.s.sessions && w2.prunes == w.prunes && w2.calls.s.undo == w.calls.s.undo;
  }

  /** In every world: a thread that is registered again between the two last sections of a prune
      that collected it is mapped and its session tracked, and still its undo manager goes: the
      next look for it makes a new one, and what could be undone is lost. */
  lemma {:induction false} ReturningThreadLosesUndo(u: Uuids, w: System, p: nat, i: nat, call: Call)
    requires call.RegisterCall? && i < |w.calls.tasks| && w.calls.tasks[i] == Task(call, RegisterMap)
    requires p < |w.prunes| && w.prunes[p].Unmapping? && call.tid in w.prunes[p].tids
    requires call.tid in w.calls.s.undo && w.calls.s.undo[call.tid] < w.calls.s.next
    ensures var end := P.Run(u, w, Returning(p, i)).calls.s;
            var key := RegisterKey(u, call.user, call.channel, call.tid);
            && key in end.threadMap && end.threadMap[key] == call.tid && call.user in end.sessions
            && call.tid !in end.undo && GetUndo(end, call.tid).1 != w.calls.s.undo[call.tid]
  {
    var a, b := PruneSection(p, {}, {}), CallEvent(Step(i));
    RunConcat(u, w, [a, b], [b, b, a]);
    TwoSteps(u, w, a, b);
    var w1 := P.Next(u, w, a);
    assert w1.calls.tasks == w.calls.tasks && w1.prunes[p] == Dropping(w.prunes[p].tids);
    assert w1.calls.s.undo == w.calls.s.undo && w1.calls.s.next == w.calls.s.next;
    var w2 := P.Next(u, w1, b);
    assert w2.calls.tasks[i] == Task(call, RegisterUndo) && w2.prunes == w1.prunes;
    assert w2.calls.s.undo == w.calls.s.undo && w2.calls.s.next == w.calls.s.next;
    RestOfReturn(u, w2, p, i, call);
  }
}
