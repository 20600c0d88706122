/** Which thread ids overlapping calls can place under two keys: adoption against adoption
    never, creation against creation never, an adoption inside a creation sometimes. */
module SessionAdoptions {
  import opened Wrappers
  import opened SessionManagers
  import opened SessionRaces
  import SessionRuns

  // ---- adoption against adoption ----

  ghost predicate AdoptedApart(w: World) {
    && w.adopted <= w.s.threadMap.Keys
    && (forall a, b :: a in w.adopted && b in w.adopted && a != b ==> w.s.threadMap[a] != w.s.threadMap[b])
  }

  lemma {:induction false} AdoptionKeepsApart(w: World, key: Key, tid: ThreadId)
    requires AdoptedApart(w) && !Mapped(w.s, tid)
    ensures AdoptedApart(World(MapThread(w.s, key, tid), w.tasks, w.adopted + {key}))
  {
    assert forall a :: a in w.adopted ==> w.s.threadMap[a] in w.s.threadMap.Values;
  }

  lemma {:induction false} OtherMappingKeepsApart(w: World, key: Key, tid: ThreadId)
    requires AdoptedApart(w)
    ensures AdoptedApart(World(MapThread(w.s, key, tid), w.tasks, w.adopted - {key}))
  {
  }

  lemma {:induction false} AdoptedApartStep(u: Uuids, w: World, e: Event)
    requires AdoptedApart(w)
    ensures AdoptedApart(Next(u, w, e))
  {
    if e.Step? && e.i < |w.tasks| {
      var task, v := w.tasks[e.i], Next(u, w, e);
      if task.call.ResolveCall? && task.pc.AdoptWrite? && !Mapped(w.s, task.pc.uuid) {
        AdoptionKeepsApart(w, task.call.key, task.pc.uuid);
      } else if task.call.ResolveCall? && task.pc.Mapping? {
        OtherMappingKeepsApart(w, task.call.key, task.pc.tid);
      } else if task.call.RegisterCall? && task.pc.RegisterMap? {
        OtherMappingKeepsApart(w, RegisterKey(u, task.call.user, task.call.channel, task.call.tid), task.call.tid);
      } else if !task.call.RegisterCall? {
        OthersWriteNothing(u, w.s, task);
      }
    }
  }

  lemma {:induction false} AdoptedApartRun(u: Uuids, w: World, es: seq<Event>)
    requires AdoptedApart(w)
    ensures AdoptedApart(Run(u, w, es))
    decreases |es|
  {
    if es != [] {
      AdoptedApartStep(u, w, es[0]);
      AdoptedApartRun(u, Next(u, w, es[0]), es[1..]);
    }
  }

  /** Whatever else is called, two adoptions never place one id under two keys. */
  lemma {:induction false} AdoptionsNeverCollide(u: Uuids, es: seq<Event>, a: Key, b: Key)
    ensures var w := Run(u, IDLE, es);
            a in w.adopted && b in w.adopted && a != b ==>
              a in w.s.threadMap && b in w.s.threadMap && w.s.threadMap[a] != w.s.threadMap[b]
  {
    AdoptedApartRun(u, IDLE, es);
  }

  // ---- creation ----

  /** Every thread id in sight has been taken from the supply. */
  ghost predicate ThreadIdsUsed(s: State) {
    forall sid, tid :: tid in ThreadsOf(s, sid) ==> tid < s.next
  }

  ghost predicate Used(s: State) {
    ThreadIdsUsed(s) && (forall key :: key in s.threadMap ==> s.threadMap[key] < s.next)
  }

  ghost predicate TaskIdsUsed(s: State, task: Task) {
    && !task.call.RegisterCall?
    && (task.pc.AdoptWrite? ==> task.pc.uuid < s.next)
    && (task.pc.Mapping? ==> task.pc.tid < s.next)
  }

  ghost predicate IdsUsed(w: World) {
    && Used(w.s)
    && (forall i :: 0 <= i < |w.tasks| ==> TaskIdsUsed(w.s, w.tasks[i]))
  }

  ghost predicate PendingApart(w: World) {
    forall i, j | 0 <= i < |w.tasks| && 0 <= j < |w.tasks| && i != j
                  && w.tasks[i].pc.Mapping? && w.tasks[j].pc.Mapping? :: w.tasks[i].pc.tid != w.tasks[j].pc.tid
  }

  /** Only an adoption maps a thread before its creator does. */
  ghost predicate PendingFresh(w: World) {
    forall i, key | 0 <= i < |w.tasks| && w.tasks[i].pc.Mapping? && key in w.s.threadMap
                    && w.s.threadMap[key] == w.tasks[i].pc.tid :: key in w.adopted
  }

  ghost predicate CreatedApart(w: World) {
    forall a, b :: a in w.s.threadMap && b in w.s.threadMap && a !in w.adopted && b !in w.adopted && a != b
                   ==> w.s.threadMap[a] != w.s.threadMap[b]
  }

  ghost predicate Apart(w: World) {
    IdsUsed(w) && PendingApart(w) && PendingFresh(w) && CreatedApart(w) && AdoptedApart(w)
  }

  predicate Unregistered(es: seq<Event>) {
    forall e :: e in es ==> e.Start? ==> !e.call.RegisterCall?
  }

  lemma {:induction false} ThreadsAddedAreUsed(s: State, sid: SessionId, more: set<ThreadId>, s1: State)
    requires ThreadIdsUsed(s) && s.next <= s1.next && (forall tid :: tid in more ==> tid < s1.next)
    requires s1.threads == s.threads || s1.threads == s.threads[sid := ThreadsOf(s, sid) + more]
    ensures ThreadIdsUsed(s1)
  {
    forall x, tid | tid in ThreadsOf(s1, x)
      ensures tid < s1.next
    {
      assert tid in ThreadsOf(s, x) || tid in more;
    }
  }

  lemma {:induction false} SessionStepUsed(s: State, task: Task)
    requires Used(s)
    ensures var (s1, pc) := SessionStep(s, task);
            Used(s1) && s.next <= s1.next && TaskIdsUsed(s1, Task(UndoCall(0), pc))
  {
    var s1 := SessionStep(s, task).0;
    assert forall x :: ThreadsOf(s1, x) <= ThreadsOf(s, x);
  }

  lemma {:induction false} ResolveStepUsed(u: Uuids, s: State, key: Key, pc: Pc)
    requires Used(s) && TaskIdsUsed(s, Task(ResolveCall(key), pc))
    ensures var (s1, pc1) := ResolveStep(u, s, key, pc);
            Used(s1) && s.next <= s1.next && TaskIdsUsed(s1, Task(ResolveCall(key), pc1))
  {
    var s1 := ResolveStep(u, s, key, pc).0;
    if pc.Creating? {
      ThreadsAddedAreUsed(s, pc.sid, {s.next}, s1);
    } else {
      assert s1.threads == s.threads;
      ThreadsAddedAreUsed(s, 0, {}, s1);
    }
  }

  lemma {:induction false} TaskStepUsed(u: Uuids, s: State, task: Task)
    requires Used(s) && TaskIdsUsed(s, task)
    ensures var (s1, pc) := TaskStep(u, s, task); Used(s1) && s.next <= s1.next && TaskIdsUsed(s1, task.(pc := pc))
  {
    if task.pc.SessionRead? || task.pc.SessionWrite? {
      SessionStepUsed(s, task);
    } else {
      match task.call
      case GetCall(_) =>
      case ResolveCall(key) => ResolveStepUsed(u, s, key, task.pc);
      case UndoCall(_) => ThreadsAddedAreUsed(s, 0, {}, TaskStep(u, s, task).0);
    }
  }

  lemma {:induction false} IdsUsedStep(u: Uuids, w: World, e: Event)
    requires IdsUsed(w) && Unregistered([e])
    ensures IdsUsed(Next(u, w, e))
  {
    assert e in [e];
    var s1 := Next(u, w, e).s;
    match e
    case Start(_) =>
    case Step(i) =>
      if i < |w.tasks| {
        TaskStepUsed(u, w.s, w.tasks[i]);
      }
    case Create(sid) => ThreadsAddedAreUsed(w.s, sid, {w.s.next}, s1);
    case Insert(sid, tid) => ThreadsAddedAreUsed(w.s, sid, {tid}, s1);
    case Drop(sid, tid) =>
      assert forall x :: ThreadsOf(s1, x) <= ThreadsOf(w.s, x);
  }

  lemma {:induction false} CreatingStep(u: Uuids, w: World, i: nat)
    requires Apart(w) && i < |w.tasks| && w.tasks[i].pc.Creating? && w.tasks[i].call.ResolveCall?
    ensures var v := Next(u, w, Step(i)); PendingApart(v) && PendingFresh(v) && CreatedApart(v)
  {
  }

  lemma {:induction false} MappingStep(u: Uuids, w: World, i: nat)
    requires Apart(w) && i < |w.tasks| && w.tasks[i].pc.Mapping? && w.tasks[i].call.ResolveCall?
    ensures var v := Next(u, w, Step(i)); PendingApart(v) && PendingFresh(v) && CreatedApart(v)
  {
  }

  lemma {:induction false} AdoptStep(u: Uuids, w: World, i: nat)
    requires Apart(w) && i < |w.tasks| && w.tasks[i].pc.AdoptWrite? && w.tasks[i].call.ResolveCall?
    ensures var v := Next(u, w, Step(i)); PendingApart(v) && PendingFresh(v) && CreatedApart(v)
  {
  }

  /** Only an adoption and the mapping of a creation write the thread map. */
  predicate Writes(s: State, task: Task) {
    task.call.ResolveCall? && (task.pc.Mapping? || (task.pc.AdoptWrite? && !Mapped(s, task.pc.uuid)))
  }

  lemma {:induction false} OthersWriteNothing(u: Uuids, s: State, task: Task)
    requires !task.call.RegisterCall? && !Writes(s, task)
    ensures TaskStep(u, s, task).0.threadMap == s.threadMap
  {
    if task.pc.SessionRead? || task.pc.SessionWrite? {
      assert SessionStep(s, task).0.threadMap == s.threadMap;
    } else if task.call.ResolveCall? {
      assert ResolveStep(u, s, task.call.key, task.pc).0.threadMap == s.threadMap;
    }
  }

  lemma {:induction false} OtherStep(u: Uuids, w: World, i: nat)
    requires Apart(w) && i < |w.tasks|
    requires w.tasks[i].call.ResolveCall? ==>
               !w.tasks[i].pc.Creating? && !w.tasks[i].pc.Mapping? && !w.tasks[i].pc.AdoptWrite?
    ensures var v := Next(u, w, Step(i)); PendingApart(v) && PendingFresh(v) && CreatedApart(v)
  {
    var task, v := w.tasks[i], Next(u, w, Step(i));
    OthersWriteNothing(u, w.s, task);
    assert v.tasks[i].pc.Mapping? ==> v.tasks[i].pc == task.pc;
    SameMapStaysApart(w, v);
  }

  lemma {:induction false} SameMapStaysApart(w: World, v: World)
    requires PendingApart(w) && PendingFresh(w) && CreatedApart(w)
    requires v.s.threadMap == w.s.threadMap && v.adopted == w.adopted && |v.tasks| == |w.tasks|
    requires forall j :: 0 <= j < |v.tasks| && v.tasks[j].pc.Mapping? ==> v.tasks[j].pc == w.tasks[j].pc
    ensures PendingApart(v) && PendingFresh(v) && CreatedApart(v)
  {
  }

  lemma {:induction false} ApartStep(u: Uuids, w: World, e: Event)
    requires Apart(w) && Unregistered([e])
    ensures Apart(Next(u, w, e))
  {
    assert e in [e];
    IdsUsedStep(u, w, e);
    AdoptedApartStep(u, w, e);
    if e.Step? && e.i < |w.tasks| {
      var pc := w.tasks[e.i].pc;
      if w.tasks[e.i].call.ResolveCall? && pc.Creating? { CreatingStep(u, w, e.i); }
      else if w.tasks[e.i].call.ResolveCall? && pc.Mapping? { MappingStep(u, w, e.i); }
      else if w.tasks[e.i].call.ResolveCall? && pc.AdoptWrite? { AdoptStep(u, w, e.i); }
      else { OtherStep(u, w, e.i); }
    }
  }

  lemma {:induction false} ApartRun(u: Uuids, w: World, es: seq<Event>)
    requires Apart(w) && Unregistered(es)
    ensures Apart(Run(u, w, es))
    decreases |es|
  {
    if es != [] {
      assert es[0] in es;
      ApartStep(u, w, es[0]);
      ApartRun(u, Next(u, w, es[0]), es[1..]);
    }
  }

  /** Without registrations, one thread is under at most two keys, and then one of them made
      it and the other adopted it: calls that only create, or only adopt, never collide. */
  lemma {:induction false} AtMostTwoKeys(u: Uuids, es: seq<Event>, a: Key, b: Key)
    requires Unregistered(es)
    ensures var w := Run(u, IDLE, es);
            a in w.s.threadMap && b in w.s.threadMap && a != b && w.s.threadMap[a] == w.s.threadMap[b]
            ==> (a in w.adopted <==> b !in w.adopted)
  {
    ApartRun(u, IDLE, es);
  }

  // ---- when no key is shared ----

  /** No adoption writes an id whose creator has yet to map it. */
  ghost predicate Patient(u: Uuids, w: World, es: seq<Event>)
    decreases |es|
  {
    es == [] || (PatientStep(w, es[0]) && Patient(u, Next(u, w, es[0]), es[1..]))
  }

  ghost predicate PatientStep(w: World, e: Event) {
    e.Step? && e.i < |w.tasks| && w.tasks[e.i].pc.AdoptWrite? ==>
      forall j :: 0 <= j < |w.tasks| && w.tasks[j].pc.Mapping? ==> w.tasks[j].pc.tid != w.tasks[e.i].pc.uuid
  }

  ghost predicate PendingUnmapped(w: World) {
    forall i :: 0 <= i < |w.tasks| && w.tasks[i].pc.Mapping? ==> !Mapped(w.s, w.tasks[i].pc.tid)
  }

  lemma {:induction false} PatientKeepsUnmapped(u: Uuids, w: World, e: Event)
    requires Apart(w) && PendingUnmapped(w) && PatientStep(w, e)
    ensures PendingUnmapped(Next(u, w, e))
  {
    if e.Step? && e.i < |w.tasks| {
      var task, v := w.tasks[e.i], Next(u, w, e);
      if task.call.ResolveCall? && task.pc.Mapping? {
        forall i | 0 <= i < |v.tasks| && v.tasks[i].pc.Mapping?
          ensures !Mapped(v.s, v.tasks[i].pc.tid)
        {
          assert i != e.i && v.tasks[i] == w.tasks[i];
          MappedAfter(w.s, task.call.key, task.pc.tid);
        }
      } else if Writes(w.s, task) {
        MappedAfter(w.s, task.call.key, task.pc.uuid);
      } else {
        OthersWriteNothing(u, w.s, task);
        if task.call.ResolveCall? && task.pc.Creating? {
          assert v.tasks[e.i].pc.tid == w.s.next && w.s.next !in w.s.threadMap.Values;
        }
      }
    }
  }

  lemma {:induction false} MappedAfter(s: State, key: Key, tid: ThreadId)
    ensures MapThread(s, key, tid).threadMap.Values <= s.threadMap.Values + {tid}
  {
  }

  lemma {:induction false} FreshMappingIsInjective(s: State, key: Key, tid: ThreadId)
    requires SessionRuns.Injective(s) && !Mapped(s, tid)
    ensures SessionRuns.Injective(MapThread(s, key, tid))
  {
    assert forall k :: k in s.threadMap ==> s.threadMap[k] in s.threadMap.Values;
  }

  lemma {:induction false} PatientKeepsInjective(u: Uuids, w: World, e: Event)
    requires Apart(w) && PendingUnmapped(w) && SessionRuns.Injective(w.s)
    ensures SessionRuns.Injective(Next(u, w, e).s)
  {
    if e.Step? && e.i < |w.tasks| {
      var task := w.tasks[e.i];
      assert !task.call.RegisterCall?;
      if task.call.ResolveCall? && task.pc.Mapping? {
        FreshMappingIsInjective(w.s, task.call.key, task.pc.tid);
      } else if Writes(w.s, task) {
        FreshMappingIsInjective(w.s, task.call.key, task.pc.uuid);
      } else {
        OthersWriteNothing(u, w.s, task);
      }
    }
  }

  lemma {:induction false} PatientRun(u: Uuids, w: World, es: seq<Event>)
    requires Apart(w) && PendingUnmapped(w) && SessionRuns.Injective(w.s)
    requires Unregistered(es) && Patient(u, w, es)
    ensures SessionRuns.Injective(Run(u, w, es).s)
    decreases |es|
  {
    if es != [] {
      assert es[0] in es;
      PatientKeepsUnmapped(u, w, es[0]);
      PatientKeepsInjective(u, w, es[0]);
      ApartStep(u, w, es[0]);
      PatientRun(u, Next(u, w, es[0]), es[1..]);
    }
  }

  /** If nobody names a thread before its creator has mapped it, no thread is ever shared. */
  lemma {:induction false} PatientRunsShareNothing(u: Uuids, es: seq<Event>)
    requires Unregistered(es) && Patient(u, IDLE, es)
    ensures SessionRuns.Injective(Run(u, IDLE, es).s)
  {
    PatientRun(u, IDLE, es);
  }

  /** The creation whose thread has been adopted under another key before it maps it. */
  ghost predicate MapsAnAdopted(w: World, e: Event) {
    && e.Step? && e.i < |w.tasks| && w.tasks[e.i].call.ResolveCall? && w.tasks[e.i].pc.Mapping?
    && exists key :: key in w.s.threadMap && w.s.threadMap[key] == w.tasks[e.i].pc.tid && key != w.tasks[e.i].call.key
  }

  lemma {:induction false} MappingShares(s: State, own: Key, tid: ThreadId)
    requires SessionRuns.Injective(s)
    ensures SessionRuns.Injective(MapThread(s, own, tid)) <==>
            !exists key :: key in s.threadMap && s.threadMap[key] == tid && key != own
  {
    var t := MapThread(s, own, tid).threadMap;
    if key :| key in s.threadMap && s.threadMap[key] == tid && key != own {
      assert own in t && key in t && t[own] == t[key];
    }
  }

  /** A step makes two keys share a thread exactly when it maps a created thread that an
      adoption has already put under another key. */
  lemma {:induction false} SharesExactlyWhen(u: Uuids, w: World, e: Event)
    requires IdsUsed(w) && SessionRuns.Injective(w.s)
    ensures SessionRuns.Injective(Next(u, w, e).s) <==> !MapsAnAdopted(w, e)
  {
    if e.Step? && e.i < |w.tasks| {
      var task := w.tasks[e.i];
      assert TaskIdsUsed(w.s, task);
      if task.call.ResolveCall? && task.pc.Mapping? {
        MappingShares(w.s, task.call.key, task.pc.tid);
      } else if Writes(w.s, task) {
        FreshMappingIsInjective(w.s, task.call.key, task.pc.uuid);
      } else {
        OthersWriteNothing(u, w.s, task);
      }
    }
  }
}
