/** Overlapping session-manager calls. Every lock section is one atomic step, and the steps of
    any number of calls interleave freely. Pruning does not happen in these runs. */
module SessionRaces {
  import opened Wrappers
  import opened SessionManagers
  import SessionRuns

  datatype Call =
    | GetCall(user: string)
    | ResolveCall(key: Key)
    | RegisterCall(user: string, channel: string, tid: ThreadId, sid: SessionId)
    | UndoCall(tid: ThreadId)

  /** Where a call stands: the lock section it enters next, or what it returned. */
  datatype Pc =
    | SessionRead | SessionWrite
    | Lookup(sid: SessionId)
    | Elsewhere(sid: SessionId, uuid: ThreadId)
    | Contains(sid: SessionId, uuid: ThreadId)
    | AdoptWrite(sid: SessionId, uuid: ThreadId)
    | AdoptUndo(sid: SessionId, tid: ThreadId)
    | Creating(sid: SessionId)
    | Mapping(sid: SessionId, tid: ThreadId)
    | MakingUndo(sid: SessionId, tid: ThreadId)
    | RegisterMap | RegisterUndo | RegisterSession
    | UndoRead | UndoWrite
    | GotSession(sid: SessionId)
    | GotThread(sid: SessionId, tid: ThreadId)
    | GotUndo(mgr: UndoId)
    | Registered

  datatype Task = Task(call: Call, pc: Pc)

  /** `adopted` are the keys whose present mapping was placed by an adoption. */
  datatype World = World(s: State, tasks: seq<Task>, adopted: set<Key>)

  datatype Event =
    | Start(call: Call)
    | Step(i: nat)
    | Create(sid: SessionId)
    | Insert(sid: SessionId, tid: ThreadId)
    | Drop(sid: SessionId, tid: ThreadId)

  const IDLE: World := World(EMPTY, [], {})

  function First(call: Call): Pc {
    match call
    case GetCall(_) => SessionRead
    case ResolveCall(_) => SessionRead
    case RegisterCall(_, _, _, _) => RegisterMap
    case UndoCall(_) => UndoRead
  }

  function GoOn(call: Call, sid: SessionId): Pc {
    if call.ResolveCall? then Lookup(sid) else GotSession(sid)
  }

  function UserOf(call: Call): string {
    match call
    case GetCall(user) => user
    case ResolveCall(key) => key.user
    case RegisterCall(user, _, _, _) => user
    case UndoCall(_) => ""
  }

  /** One section of get_or_create_session. */
  function SessionStep(s: State, task: Task): (State, Pc) {
    var user := UserOf(task.call);
    if task.pc.SessionRead? then
      (s, if user in s.sessions then GoOn(task.call, s.sessions[user]) else SessionWrite)
    else
      var (s1, sid) := GetOrCreate(s, user);
      (s1, GoOn(task.call, sid))
  }

  /** One section of resolve_thread once it holds the session; the flag tells an adoption. */
  function ResolveStep(u: Uuids, s: State, key: Key, pc: Pc): (State, Pc) {
    match pc
    case Lookup(sid) =>
      if LiveMapping(s, key, sid) then (s, GotThread(sid, s.threadMap[key]))
      else if key.external.Some? && u.parse(key.external.value).Some?
      then (s, Elsewhere(sid, u.parse(key.external.value).value))
      else (s, Creating(sid))
    case Elsewhere(sid, uuid) => (s, if Mapped(s, uuid) then Creating(sid) else Contains(sid, uuid))
    case Contains(sid, uuid) => (s, if uuid in ThreadsOf(s, sid) then AdoptWrite(sid, uuid) else Creating(sid))
    case AdoptWrite(sid, uuid) =>
      if Mapped(s, uuid) then (s, Creating(sid)) else (MapThread(s, key, uuid), AdoptUndo(sid, uuid))
    case AdoptUndo(sid, tid) => (EnsureUndo(s, tid), GotThread(sid, tid))
    case Creating(sid) => var (s1, tid) := CreateThread(s, sid); (s1, Mapping(sid, tid))
    case Mapping(sid, tid) => (MapThread(s, key, tid), MakingUndo(sid, tid))
    case MakingUndo(sid, tid) => (NewUndo(s, tid), GotThread(sid, tid))
    case _ => (s, pc)
  }

  /** One section of register_thread. */
  function RegisterStep(u: Uuids, s: State, call: Call, pc: Pc): (State, Pc)
    requires call.RegisterCall?
  {
    match pc
    case RegisterMap => (MapThread(s, RegisterKey(u, call.user, call.channel, call.tid), call.tid), RegisterUndo)
    case RegisterUndo => (EnsureUndo(s, call.tid), RegisterSession)
    case RegisterSession =>
      (if call.user in s.sessions then s else s.(sessions := s.sessions[call.user := call.sid]), Registered)
    case _ => (s, pc)
  }

  /** One section of get_undo_manager. */
  function UndoStep(s: State, tid: ThreadId, pc: Pc): (State, Pc) {
    match pc
    case UndoRead => (s, if tid in s.undo then GotUndo(s.undo[tid]) else UndoWrite)
    case UndoWrite => var (s1, mgr) := GetUndo(s, tid); (s1, GotUndo(mgr))
    case _ => (s, pc)
  }

  function TaskStep(u: Uuids, s: State, task: Task): (State, Pc) {
    if task.pc.SessionRead? || task.pc.SessionWrite? then SessionStep(s, task)
    else
      match task.call
      case GetCall(_) => (s, task.pc)
      case ResolveCall(key) => ResolveStep(u, s, key, task.pc)
      case RegisterCall(_, _, _, _) => RegisterStep(u, s, task.call, task.pc)
      case UndoCall(tid) => UndoStep(s, tid, task.pc)
  }

  /** The adopted keys after a task has gone from one section to the next. */
  function Adopted(u: Uuids, adopted: set<Key>, task: Task, pc: Pc): set<Key> {
    match task.call
    case ResolveCall(key) =>
      if task.pc.AdoptWrite? && pc.AdoptUndo? then adopted + {key}
      else if task.pc.Mapping? then adopted - {key}
      else adopted
    case RegisterCall(user, channel, tid, _) =>
      if task.pc.RegisterMap? then adopted - {RegisterKey(u, user, channel, tid)} else adopted
    case _ => adopted
  }

  function Next(u: Uuids, w: World, e: Event): World {
    match e
    case Start(call) => w.(tasks := w.tasks + [Task(call, First(call))])
    case Step(i) =>
      if i < |w.tasks| then
        var (s1, pc) := TaskStep(u, w.s, w.tasks[i]);
        World(s1, w.tasks[i := w.tasks[i].(pc := pc)], Adopted(u, w.adopted, w.tasks[i], pc))
      else w
    case Create(sid) => w.(s := CreateThread(w.s, sid).0)
    case Insert(sid, tid) => w.(s := SessionRuns.InsertThread(w.s, sid, tid))
    case Drop(sid, tid) => w.(s := SessionRuns.DropThread(w.s, sid, tid))
  }

  function Run(u: Uuids, w: World, es: seq<Event>): World
    decreases |es|
  {
    if es == [] then w else Run(u, Next(u, w, es[0]), es[1..])
  }

  // ---- one session per user ----

  /** The session a call works with or returned. */
  function Held(pc: Pc): Option<SessionId> {
    match pc
    case Lookup(sid) => Some(sid)
    case Elsewhere(sid, _) => Some(sid)
    case Contains(sid, _) => Some(sid)
    case AdoptWrite(sid, _) => Some(sid)
    case AdoptUndo(sid, _) => Some(sid)
    case Creating(sid) => Some(sid)
    case Mapping(sid, _) => Some(sid)
    case MakingUndo(sid, _) => Some(sid)
    case GotSession(sid) => Some(sid)
    case GotThread(sid, _) => Some(sid)
    case _ => None
  }

  ghost predicate HoldsTracked(s: State, task: Task) {
    Held(task.pc).Some? ==>
      var user := UserOf(task.call);
      user in s.sessions && s.sessions[user] == Held(task.pc).value
  }

  ghost predicate AllHoldTracked(w: World) {
    forall i :: 0 <= i < |w.tasks| ==> HoldsTracked(w.s, w.tasks[i])
  }

  /** Ids are only taken from the supply, and a tracked session is never replaced or removed. */
  ghost predicate Grows(s: State, t: State) {
    && s.next <= t.next
    && forall user :: user in s.sessions ==> user in t.sessions && t.sessions[user] == s.sessions[user]
  }

  lemma {:induction false} SessionStepGrows(s: State, task: Task)
    ensures Grows(s, SessionStep(s, task).0)
  {
  }

  lemma {:induction false} ResolveStepGrows(u: Uuids, s: State, key: Key, pc: Pc)
    ensures var t := ResolveStep(u, s, key, pc).0; s.next <= t.next && t.sessions == s.sessions
  {
  }

  lemma {:induction false} RegisterStepGrows(u: Uuids, s: State, call: Call, pc: Pc)
    requires call.RegisterCall?
    ensures Grows(s, RegisterStep(u, s, call, pc).0)
  {
  }

  lemma {:induction false} TaskGrows(u: Uuids, s: State, task: Task)
    ensures Grows(s, TaskStep(u, s, task).0)
  {
    if task.pc.SessionRead? || task.pc.SessionWrite? {
      SessionStepGrows(s, task);
    } else {
      match task.call
      case GetCall(_) =>
      case ResolveCall(key) => ResolveStepGrows(u, s, key, task.pc);
      case RegisterCall(_, _, _, _) => RegisterStepGrows(u, s, task.call, task.pc);
      case UndoCall(tid) => assert UndoStep(s, tid, task.pc).0.sessions == s.sessions;
    }
  }

  lemma {:induction false} EveryStepGrows(u: Uuids, w: World, e: Event)
    ensures Grows(w.s, Next(u, w, e).s) && |w.tasks| <= |Next(u, w, e).tasks|
  {
    if e.Step? && e.i < |w.tasks| { TaskGrows(u, w.s, w.tasks[e.i]); }
  }

  lemma {:induction false} TaskHoldsTracked(u: Uuids, s: State, task: Task)
    requires HoldsTracked(s, task)
    ensures var (s1, pc) := TaskStep(u, s, task); HoldsTracked(s1, task.(pc := pc))
  {
  }

  lemma {:induction false} HoldsStep(u: Uuids, w: World, e: Event)
    requires AllHoldTracked(w)
    ensures AllHoldTracked(Next(u, w, e))
  {
    EveryStepGrows(u, w, e);
    if e.Step? && e.i < |w.tasks| { TaskHoldsTracked(u, w.s, w.tasks[e.i]); }
  }

  lemma {:induction false} HoldsRun(u: Uuids, w: World, es: seq<Event>)
    requires AllHoldTracked(w)
    ensures AllHoldTracked(Run(u, w, es))
    decreases |es|
  {
    if es != [] {
      HoldsStep(u, w, es[0]);
      HoldsRun(u, Next(u, w, es[0]), es[1..]);
    }
  }

  /** However their lock sections interleave, all callers get one session for a user. */
  lemma {:induction false} OneSessionPerUser(u: Uuids, es: seq<Event>, i: nat, j: nat)
    ensures var w := Run(u, IDLE, es);
            i < |w.tasks| && j < |w.tasks| && UserOf(w.tasks[i].call) == UserOf(w.tasks[j].call)
            && Held(w.tasks[i].pc).Some? && Held(w.tasks[j].pc).Some?
            ==> Held(w.tasks[i].pc) == Held(w.tasks[j].pc)
  {
    HoldsRun(u, IDLE, es);
  }
}
