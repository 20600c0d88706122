/** The step-by-step calls against the whole calls: a call that runs alone does what its whole
    form does, a key that has settled stays put under any overlap, and the two races that the
    locks leave open. */
module SessionTraces {
  import opened Wrappers
  import opened SessionManagers
  import opened SessionRaces
  import SessionAdoptions
  import SessionRuns

  // ---- a call that runs alone ----

  function Alone(u: Uuids, s: State, task: Task, steps: nat): (State, Pc)
    decreases steps
  {
    if steps == 0 then (s, task.pc)
    else
      var (s1, pc) := TaskStep(u, s, task);
      Alone(u, s1, task.(pc := pc), steps - 1)
  }

  predicate Finished(pc: Pc) {
    pc.GotSession? || pc.GotThread? || pc.GotUndo? || pc.Registered?
  }

  lemma {:induction false} FinishedStays(u: Uuids, s: State, task: Task, steps: nat)
    requires Finished(task.pc)
    ensures Alone(u, s, task, steps) == (s, task.pc)
  {
    if steps > 0 { FinishedStays(u, s, task, steps - 1); }
  }

  lemma {:induction false} CreateAlone(u: Uuids, s: State, key: Key, sid: SessionId, steps: nat)
    requires steps >= 3
    ensures var (s1, tid) := CreateThread(s, sid);
            Alone(u, s, Task(ResolveCall(key), Creating(sid)), steps)
            == (NewUndo(MapThread(s1, key, tid), tid), GotThread(sid, tid))
  {
    var (s1, tid) := CreateThread(s, sid);
    var s2 := MapThread(s1, key, tid);
    assert Alone(u, s1, Task(ResolveCall(key), Mapping(sid, tid)), steps - 1)
        == Alone(u, s2, Task(ResolveCall(key), MakingUndo(sid, tid)), steps - 2);
    FinishedStays(u, NewUndo(s2, tid), Task(ResolveCall(key), GotThread(sid, tid)), steps - 3);
  }

  lemma {:induction false} AdoptAlone(u: Uuids, s: State, key: Key, sid: SessionId, uuid: ThreadId, steps: nat)
    requires steps >= 2 && !Mapped(s, uuid)
    ensures Alone(u, s, Task(ResolveCall(key), AdoptWrite(sid, uuid)), steps)
         == (EnsureUndo(MapThread(s, key, uuid), uuid), GotThread(sid, uuid))
  {
    var s1 := MapThread(s, key, uuid);
    FinishedStays(u, EnsureUndo(s1, uuid), Task(ResolveCall(key), GotThread(sid, uuid)), steps - 2);
  }

  lemma {:induction false} PlaceAlone(u: Uuids, s: State, key: Key, sid: SessionId, uuid: ThreadId, steps: nat)
    requires steps >= 5 && key.external.Some? && u.parse(key.external.value) == Some(uuid)
    ensures Alone(u, s, Task(ResolveCall(key), Elsewhere(sid, uuid)), steps)
         == var (s1, tid) := Place(u, s, key, sid); (s1, GotThread(sid, tid))
  {
    if Mapped(s, uuid) {
      CreateAlone(u, s, key, sid, steps - 1);
    } else if uuid in ThreadsOf(s, sid) {
      AdoptAlone(u, s, key, sid, uuid, steps - 2);
    } else {
      CreateAlone(u, s, key, sid, steps - 2);
    }
  }

  lemma {:induction false} LookupAlone(u: Uuids, s: State, key: Key, sid: SessionId, steps: nat)
    requires steps >= 6
    ensures Alone(u, s, Task(ResolveCall(key), Lookup(sid)), steps)
         == if LiveMapping(s, key, sid) then (s, GotThread(sid, s.threadMap[key]))
            else var (s1, tid) := Place(u, s, key, sid); (s1, GotThread(sid, tid))
  {
    if LiveMapping(s, key, sid) {
      FinishedStays(u, s, Task(ResolveCall(key), GotThread(sid, s.threadMap[key])), steps - 1);
    } else if key.external.Some? && u.parse(key.external.value).Some? {
      PlaceAlone(u, s, key, sid, u.parse(key.external.value).value, steps - 1);
    } else {
      CreateAlone(u, s, key, sid, steps - 1);
    }
  }

  /** With nobody in between, the eight lock sections of a resolution do what the whole call
      does, in the state and in the session and thread they return. */
  lemma {:induction false} ResolveAlone(u: Uuids, s: State, key: Key)
    ensures Alone(u, s, Task(ResolveCall(key), SessionRead), 8)
         == var (s1, sid, tid) := Resolve(u, s, key); (s1, GotThread(sid, tid))
  {
    var (g, sid) := GetOrCreate(s, key.user);
    if key.user in s.sessions {
      LookupAlone(u, s, key, sid, 7);
    } else {
      assert Alone(u, s, Task(ResolveCall(key), SessionWrite), 7)
          == Alone(u, g, Task(ResolveCall(key), Lookup(sid)), 6);
      LookupAlone(u, g, key, sid, 6);
    }
  }

  lemma {:induction false} RegisterAlone(u: Uuids, s: State, call: Call)
    requires call.RegisterCall?
    ensures Alone(u, s, Task(call, RegisterMap), 3)
         == (Register(u, s, call.user, call.channel, call.tid, call.sid), Registered)
  {
    var s1 := MapThread(s, RegisterKey(u, call.user, call.channel, call.tid), call.tid);
    var s2 := EnsureUndo(s1, call.tid);
    assert Alone(u, s1, Task(call, RegisterUndo), 2) == Alone(u, s2, Task(call, RegisterSession), 1);
    var s3 := Register(u, s, call.user, call.channel, call.tid, call.sid);
    assert Alone(u, s2, Task(call, RegisterSession), 1) == Alone(u, s3, Task(call, Registered), 0);
  }

  lemma {:induction false} UndoAlone(u: Uuids, s: State, tid: ThreadId)
    ensures Alone(u, s, Task(UndoCall(tid), UndoRead), 2)
         == var (s1, mgr) := GetUndo(s, tid); (s1, GotUndo(mgr))
  {
    if tid in s.undo {
      FinishedStays(u, s, Task(UndoCall(tid), GotUndo(s.undo[tid])), 1);
    } else {
      var (s1, mgr) := GetUndo(s, tid);
      assert Alone(u, s, Task(UndoCall(tid), UndoWrite), 1) == Alone(u, s1, Task(UndoCall(tid), GotUndo(mgr)), 0);
    }
  }

  // ---- settled keys ----

  /** Calls on `key` are either before their lookup or past the last mapping they may write. */
  predicate Quiet(u: Uuids, task: Task, key: Key, tid: ThreadId) {
    match task.call
    case ResolveCall(k) =>
      k == key ==> task.pc.SessionRead? || task.pc.SessionWrite? || task.pc.Lookup? || task.pc.AdoptUndo?
                   || task.pc.MakingUndo? || task.pc.GotThread?
    case RegisterCall(user, channel, t, _) =>
      RegisterKey(u, user, channel, t) == key && t != tid ==>
        task.pc.RegisterUndo? || task.pc.RegisterSession? || task.pc.Registered?
    case _ => true
  }

  /** The key has a live thread, and no call is about to write a mapping for it. */
  ghost predicate Settled(u: Uuids, w: World, key: Key, sid: SessionId, tid: ThreadId) {
    && SessionRuns.Resolved(w.s, key, sid, tid) && sid < w.s.next
    && AllHoldTracked(w)
    && (forall i :: 0 <= i < |w.tasks| ==> Quiet(u, w.tasks[i], key, tid))
  }

  /** No registration of another thread under the key begins and the thread is not dropped. */
  predicate Spares(u: Uuids, e: Event, key: Key, sid: SessionId, tid: ThreadId) {
    match e
    case Start(RegisterCall(user, channel, t, _)) => RegisterKey(u, user, channel, t) == key ==> t == tid
    case Drop(x, t) => !(x == sid && t == tid)
    case _ => true
  }

  /** Calls on the key started since world `from` are on their way to its session and thread. */
  ghost predicate Agree(w: World, from: nat, key: Key, sid: SessionId, tid: ThreadId) {
    forall i :: from <= i < |w.tasks| && w.tasks[i].call == ResolveCall(key) ==>
      w.tasks[i].pc in {SessionRead, SessionWrite, Lookup(sid), GotThread(sid, tid)}
  }

  lemma {:induction false} SessionStepSpares(u: Uuids, s: State, task: Task, key: Key, sid: SessionId, tid: ThreadId)
    requires SessionRuns.Resolved(s, key, sid, tid) && sid < s.next && (task.pc.SessionRead? || task.pc.SessionWrite?)
    ensures var (s1, pc) := SessionStep(s, task);
            SessionRuns.Resolved(s1, key, sid, tid) && s.next <= s1.next
            && (task.call == ResolveCall(key) ==> pc in {SessionWrite, Lookup(sid)})
  {
  }

  lemma {:induction false} ResolveStepSpares(
    u: Uuids, s: State, k: Key, pc: Pc, key: Key, sid: SessionId, tid: ThreadId)
    requires SessionRuns.Resolved(s, key, sid, tid)
    requires k == key ==> (pc.Lookup? && pc.sid == sid) || pc.AdoptUndo? || pc.MakingUndo? || pc.GotThread?
    ensures var (s1, pc1) := ResolveStep(u, s, k, pc);
            SessionRuns.Resolved(s1, key, sid, tid) && s.next <= s1.next
            && (k == key ==> pc1.GotThread? && (pc.Lookup? || pc == GotThread(sid, tid) ==> pc1 == GotThread(sid, tid)))
  {
  }

  lemma {:induction false} TaskSpares(u: Uuids, s: State, task: Task, key: Key, sid: SessionId, tid: ThreadId)
    requires SessionRuns.Resolved(s, key, sid, tid) && sid < s.next
    requires HoldsTracked(s, task) && Quiet(u, task, key, tid)
    ensures var (s1, pc) := TaskStep(u, s, task);
            SessionRuns.Resolved(s1, key, sid, tid) && s.next <= s1.next && Quiet(u, task.(pc := pc), key, tid)
    ensures var pc := TaskStep(u, s, task).1;
            task.call == ResolveCall(key) && task.pc in {SessionRead, SessionWrite, Lookup(sid), GotThread(sid, tid)}
            ==> pc in {SessionWrite, Lookup(sid), GotThread(sid, tid)}
  {
    if task.pc.SessionRead? || task.pc.SessionWrite? {
      SessionStepSpares(u, s, task, key, sid, tid);
    } else if task.call.ResolveCall? {
      ResolveStepSpares(u, s, task.call.key, task.pc, key, sid, tid);
    }
  }

  lemma {:induction false} SettledStep(u: Uuids, w: World, e: Event, from: nat, key: Key, sid: SessionId, tid: ThreadId)
    requires Settled(u, w, key, sid, tid) && Agree(w, from, key, sid, tid) && Spares(u, e, key, sid, tid)
    ensures Settled(u, Next(u, w, e), key, sid, tid) && Agree(Next(u, w, e), from, key, sid, tid)
  {
    HoldsStep(u, w, e);
    if e.Step? && e.i < |w.tasks| { TaskSpares(u, w.s, w.tasks[e.i], key, sid, tid); }
  }

  ghost predicate AllSpare(u: Uuids, es: seq<Event>, key: Key, sid: SessionId, tid: ThreadId) {
    forall e :: e in es ==> Spares(u, e, key, sid, tid)
  }

  lemma {:induction false} SettledRun(
    u: Uuids, w: World, es: seq<Event>, from: nat, key: Key, sid: SessionId, tid: ThreadId)
    requires Settled(u, w, key, sid, tid) && Agree(w, from, key, sid, tid) && AllSpare(u, es, key, sid, tid)
    ensures Settled(u, Run(u, w, es), key, sid, tid) && Agree(Run(u, w, es), from, key, sid, tid)
    decreases |es|
  {
    if es != [] {
      assert es[0] in es;
      SettledStep(u, w, es[0], from, key, sid, tid);
      SettledRun(u, Next(u, w, es[0]), es[1..], from, key, sid, tid);
    }
  }

  /** Once a key has settled, every later resolution of it returns its session and thread,
      whatever else overlaps with it: other keys, other users, other resolutions of the key. */
  lemma {:induction false} SettledKeysAreStable(
    u: Uuids, w: World, es: seq<Event>, key: Key, sid: SessionId, tid: ThreadId, i: nat)
    requires Settled(u, w, key, sid, tid) && AllSpare(u, es, key, sid, tid)
    requires |w.tasks| <= i < |Run(u, w, es).tasks|
    requires Run(u, w, es).tasks[i].call == ResolveCall(key) && Run(u, w, es).tasks[i].pc.GotThread?
    ensures Run(u, w, es).tasks[i].pc == GotThread(sid, tid)
    ensures SessionRuns.Resolved(Run(u, w, es).s, key, sid, tid)
  {
    SettledRun(u, w, es, |w.tasks|, key, sid, tid);
  }

  // ---- the races ----

  /** Both calls have created a thread for the key; it keeps the second, and the caller of the
      first holds a thread no key leads to. */
  predicate TwoThreads(w: World, i: nat, j: nat, key: Key) {
    && i < |w.tasks| && j < |w.tasks| && w.tasks[i].call == ResolveCall(key) && w.tasks[j].call == ResolveCall(key)
    && w.tasks[i].pc.GotThread? && w.tasks[j].pc.GotThread? && w.tasks[i].pc.tid != w.tasks[j].pc.tid
    && key in w.s.threadMap && w.s.threadMap[key] == w.tasks[j].pc.tid && w.tasks[i].pc.tid !in w.s.threadMap.Values
  }

  lemma {:induction false} RunConcat(u: Uuids, w: World, a: seq<Event>, b: seq<Event>)
    ensures Run(u, w, a + b) == Run(u, Run(u, w, a), b)
    decreases |a|
  {
    if a == [] {
      assert a + b == b;
    } else {
      assert (a + b)[0] == a[0] && (a + b)[1..] == a[1..] + b;
      RunConcat(u, Next(u, w, a[0]), a[1..], b);
    }
  }

  lemma {:induction false} RunTwo(u: Uuids, w: World, a: Event, b: Event)
    ensures Run(u, w, [a, b]) == Next(u, Next(u, w, a), b)
  {
    assert [a, b][1..] == [b] && [b][1..] == [];
    assert Run(u, Next(u, w, a), [b]) == Next(u, Next(u, w, a), b);
  }

  lemma {:induction false} RunFour(u: Uuids, w: World, a: Event, b: Event, c: Event, d: Event)
    ensures Run(u, w, [a, b, c, d]) == Next(u, Next(u, Next(u, Next(u, w, a), b), c), d)
  {
    RunConcat(u, w, [a, b], [c, d]);
    assert [a, b] + [c, d] == [a, b, c, d];
    RunTwo(u, w, a, b);
    RunTwo(u, Run(u, w, [a, b]), c, d);
  }

  /** A call past its lookup on the way to a thread of its own making. */
  predicate Makes(s: State, task: Task, key: Key) {
    && task.call == ResolveCall(key)
    && (task.pc.Creating? || ((task.pc.Mapping? || task.pc.MakingUndo? || task.pc.GotThread?) && task.pc.tid < s.next))
  }

  function Made(pc: Pc): Option<ThreadId> {
    match pc
    case Mapping(_, tid) => Some(tid)
    case MakingUndo(_, tid) => Some(tid)
    case GotThread(_, tid) => Some(tid)
    case _ => None
  }

  ghost predicate MakeApart(w: World, i: nat, j: nat, key: Key) {
    && i < |w.tasks| && j < |w.tasks| && i != j
    && Makes(w.s, w.tasks[i], key) && Makes(w.s, w.tasks[j], key)
    && (Made(w.tasks[i].pc).Some? ==> Made(w.tasks[i].pc) != Made(w.tasks[j].pc))
  }

  lemma {:induction false} MakerStep(u: Uuids, s: State, task: Task, key: Key)
    requires Makes(s, task, key)
    ensures var (s1, pc) := TaskStep(u, s, task);
            && Makes(s1, task.(pc := pc), key)
            && Made(pc) == (if task.pc.Creating? then Some(s.next) else Made(task.pc))
  {
  }

  lemma {:induction false} MakeApartStep(u: Uuids, w: World, e: Event, i: nat, j: nat, key: Key)
    requires MakeApart(w, i, j, key)
    ensures MakeApart(Next(u, w, e), i, j, key)
  {
    EveryStepGrows(u, w, e);
    if e.Step? && (e.i == i || e.i == j) { MakerStep(u, w.s, w.tasks[e.i], key); }
  }

  lemma {:induction false} MakeApartRun(u: Uuids, w: World, es: seq<Event>, i: nat, j: nat, key: Key)
    requires MakeApart(w, i, j, key)
    ensures MakeApart(Run(u, w, es), i, j, key)
    decreases |es|
  {
    if es != [] {
      MakeApartStep(u, w, es[0], i, j, key);
      MakeApartRun(u, Next(u, w, es[0]), es[1..], i, j, key);
    }
  }

  /** Whenever two calls have both found a key without a thread they make two, whatever steps
      follow in whatever order. */
  lemma {:induction false} OverlapMakesTwo(u: Uuids, w: World, es: seq<Event>, i: nat, j: nat, key: Key)
    requires i < |w.tasks| && j < |w.tasks| && i != j
    requires w.tasks[i] == Task(ResolveCall(key), w.tasks[i].pc) && w.tasks[i].pc.Creating?
    requires w.tasks[j] == Task(ResolveCall(key), w.tasks[j].pc) && w.tasks[j].pc.Creating?
    ensures var end := Run(u, w, es).tasks;
            i < |end| && j < |end| && (end[i].pc.GotThread? && end[j].pc.GotThread? ==> end[i].pc.tid != end[j].pc.tid)
  {
    MakeApartRun(u, w, es, i, j, key);
  }

  /** In one such run the key keeps the second thread and no key leads to the first. */
  lemma {:induction false} OverlapOrphansOne(u: Uuids, w: World, i: nat, j: nat, key: Key)
    requires SessionAdoptions.Used(w.s) && i < |w.tasks| && j < |w.tasks| && i != j
    requires w.tasks[i].call == ResolveCall(key) && w.tasks[i].pc.Creating?
    requires w.tasks[j].call == ResolveCall(key) && w.tasks[j].pc.Creating?
    ensures TwoThreads(Run(u, w, [Step(i), Step(j), Step(i), Step(j)] + [Step(i), Step(j)]), i, j, key)
  {
    RunConcat(u, w, [Step(i), Step(j), Step(i), Step(j)], [Step(i), Step(j)]);
    RunFour(u, w, Step(i), Step(j), Step(i), Step(j));
    var a := Next(u, Next(u, w, Step(i)), Step(j));
    var ti, tj := w.s.next, w.s.next + 1;
    assert a.tasks[i].pc == Mapping(w.tasks[i].pc.sid, ti) && a.tasks[j].pc == Mapping(w.tasks[j].pc.sid, tj);
    assert a.s.threadMap == w.s.threadMap;
    var b := Next(u, Next(u, a, Step(i)), Step(j));
    RunTwo(u, b, Step(i), Step(j));
    BothMap(u, a, i, j, key, ti, tj);
  }

  lemma {:induction false} BothMap(u: Uuids, a: World, i: nat, j: nat, key: Key, ti: ThreadId, tj: ThreadId)
    requires i < |a.tasks| && j < |a.tasks| && i != j && ti != tj && ti !in a.s.threadMap.Values
    requires a.tasks[i].call == ResolveCall(key) && a.tasks[i].pc.Mapping? && a.tasks[i].pc.tid == ti
    requires a.tasks[j].call == ResolveCall(key) && a.tasks[j].pc.Mapping? && a.tasks[j].pc.tid == tj
    ensures TwoThreads(Next(u, Next(u, Next(u, Next(u, a, Step(i)), Step(j)), Step(i)), Step(j)), i, j, key)
  {
    var b := Next(u, Next(u, a, Step(i)), Step(j));
    assert b.s.threadMap == a.s.threadMap[key := tj];
    assert ti !in b.s.threadMap.Values;
  }

  /** Two overlapping calls do get that far, from the start. */
  lemma {:induction false} TwoResolutionsTwoThreads(u: Uuids, user: string, channel: string)
    ensures exists es :: TwoThreads(Run(u, IDLE, es), 0, 1, Key(user, channel, None))
  {
    var key := Key(user, channel, None);
    var call := ResolveCall(key);
    var es1, es2 := [Start(call), Start(call), Step(0), Step(0)], [Step(1), Step(0), Step(1), Step(1)];
    RunFour(u, IDLE, Start(call), Start(call), Step(0), Step(0));
    var a := Run(u, IDLE, es1);
    var s := TrackSession(EMPTY, user).0;
    assert a == World(s, [Task(call, Lookup(0)), Task(call, SessionRead)], {});
    var es3 := [Step(1), Step(0)];
    RunTwo(u, a, Step(1), Step(0));
    var b := Run(u, a, es3);
    assert b == World(s, [Task(call, Creating(0)), Task(call, Lookup(0))], {});
    var c := Run(u, b, [Step(1)]);
    assert [Step(1)][1..] == [];
    assert c == World(s, [Task(call, Creating(0)), Task(call, Creating(0))], {});
    OverlapOrphansOne(u, c, 0, 1, key);
    var es4 := [Step(0), Step(1), Step(0), Step(1)] + [Step(0), Step(1)];
    RunConcat(u, IDLE, es1, es3);
    RunConcat(u, IDLE, es1 + es3, [Step(1)]);
    RunConcat(u, IDLE, es1 + es3 + [Step(1)], es4);
    assert TwoThreads(Run(u, IDLE, es1 + es3 + [Step(1)] + es4), 0, 1, key);
  }

  lemma {:induction false} AdoptionBeforeMapping(u: Uuids, a: World, maker: Call, namer: Key)
    requires maker.ResolveCall? && namer != maker.key && namer.user == maker.key.user
    requires a.tasks == [Task(maker, Creating(0))]
    requires maker.key.user in a.s.sessions && a.s.sessions[maker.key.user] == 0
    requires a.s.threadMap == map[] && namer.external.Some? && u.parse(namer.external.value) == Some(a.s.next)
    ensures !SessionRuns.Injective(
      Run(u, a, [Step(0), Start(ResolveCall(namer)), Step(1), Step(1)] + [Step(1), Step(1), Step(1), Step(0)]).s)
  {
    var es2, es3 := [Step(0), Start(ResolveCall(namer)), Step(1), Step(1)], [Step(1), Step(1), Step(1), Step(0)];
    RunConcat(u, a, es2, es3);
    RunFour(u, a, Step(0), Start(ResolveCall(namer)), Step(1), Step(1));
    var (s1, tid) := CreateThread(a.s, 0);
    var b := World(s1, [Task(maker, Mapping(0, tid)), Task(ResolveCall(namer), Elsewhere(0, tid))], a.adopted);
    assert Run(u, a, es2) == b;
    AdoptionThenMapping(u, b, namer, tid);
  }

  lemma {:induction false} AdoptionThenMapping(u: Uuids, b: World, namer: Key, tid: ThreadId)
    requires |b.tasks| == 2 && b.tasks[0].call.ResolveCall? && b.tasks[0].pc == Mapping(0, tid)
    requires b.tasks[1] == Task(ResolveCall(namer), Elsewhere(0, tid)) && namer != b.tasks[0].call.key
    requires b.s.threadMap == map[] && tid in ThreadsOf(b.s, 0)
    ensures !SessionRuns.Injective(Run(u, b, [Step(1), Step(1), Step(1), Step(0)]).s)
  {
    RunFour(u, b, Step(1), Step(1), Step(1), Step(0));
    var own := b.tasks[0].call.key;
    var v := Run(u, b, [Step(1), Step(1), Step(1), Step(0)]).s.threadMap;
    assert v == map[namer := tid, own := tid];
    assert namer in v && own in v && v[namer] == v[own];
  }

  /** A call that names a thread just after its creation adopts it before its creator maps it,
      and the thread is then shared by two keys, here even of two channels. */
  lemma {:induction false} AdoptionInsideCreation(u: Uuids, user: string, channel: string, other: string)
    requires SessionRuns.ShowsBack(u)
    ensures exists es :: !SessionRuns.Injective(Run(u, IDLE, es).s)
  {
    var maker := ResolveCall(Key(user, channel, None));
    var namer := Key(user, other, Some(u.show(1)));
    var es1 := [Start(maker), Step(0), Step(0), Step(0)];
    var es2 := [Step(0), Start(ResolveCall(namer)), Step(1), Step(1)];
    var es3 := [Step(1), Step(1), Step(1), Step(0)];
    RunFour(u, IDLE, Start(maker), Step(0), Step(0), Step(0));
    var a := Run(u, IDLE, es1);
    var s := TrackSession(EMPTY, user).0;
    assert a == World(s, [Task(maker, Creating(0))], {});
    assert u.parse(u.show(1)) == Some(1);
    AdoptionBeforeMapping(u, a, maker, namer);
    RunConcat(u, IDLE, es1, es2 + es3);
    assert es1 + (es2 + es3) == es1 + es2 + es3;
    assert !SessionRuns.Injective(Run(u, IDLE, es1 + es2 + es3).s);
  }

  /** The last section of a creation puts a new undo manager in place of whatever is there: a
      manager handed out meanwhile is orphaned, and by no other step. */
  lemma {:induction false} UndoManagersStay(u: Uuids, w: World, e: Event, tid: ThreadId)
    requires tid in w.s.undo && w.s.undo[tid] < w.s.next
    ensures tid in Next(u, w, e).s.undo
    ensures Next(u, w, e).s.undo[tid] == w.s.undo[tid]
       <==> !(e.Step? && e.i < |w.tasks| && ReplacesUndo(w.tasks[e.i], tid))
  {
    if e.Step? && e.i < |w.tasks| { UndoStays(u, w.s, w.tasks[e.i], tid); }
  }

  predicate ReplacesUndo(task: Task, tid: ThreadId) {
    task.call.ResolveCall? && task.pc.MakingUndo? && task.pc.tid == tid
  }

  lemma {:induction false} UndoStays(u: Uuids, s: State, task: Task, tid: ThreadId)
    requires tid in s.undo && s.undo[tid] < s.next
    ensures var s1 := TaskStep(u, s, task).0;
            tid in s1.undo && (s1.undo[tid] == s.undo[tid] <==> !ReplacesUndo(task, tid))
  {
    if task.pc.SessionRead? || task.pc.SessionWrite? {
      assert SessionStep(s, task).0.undo == s.undo;
    } else if task.call.RegisterCall? {
      var s1 := RegisterStep(u, s, task.call, task.pc).0;
      assert s1.undo == s.undo || s1 == EnsureUndo(s, task.call.tid);
    } else if task.call.ResolveCall? {
      ResolveUndoStays(u, s, task.call.key, task.pc, tid);
    } else if task.call.UndoCall? {
      var s1 := UndoStep(s, task.call.tid, task.pc).0;
      assert s1 == s || s1 == EnsureUndo(s, task.call.tid);
    }
  }

  lemma {:induction false} ResolveUndoStays(u: Uuids, s: State, key: Key, pc: Pc, tid: ThreadId)
    requires tid in s.undo && s.undo[tid] < s.next
    ensures var s1 := ResolveStep(u, s, key, pc).0;
            tid in s1.undo && (s1.undo[tid] == s.undo[tid] <==> !(pc.MakingUndo? && pc.tid == tid))
  {
  }
}
