/** The session manager (src/agent/session_manager.rs): sessions of users, the mapping from
    external thread keys to threads, and the undo managers of threads. */
module SessionManagers {
  import opened Wrappers

  type SessionId = nat
  type ThreadId = nat
  type UndoId = nat

  /** Reading and writing thread ids as external ids. */
  datatype Uuids = Uuids(parse: string -> Option<ThreadId>, show: ThreadId -> string)

  datatype Key = Key(user: string, channel: string, external: Option<string>)

  /** The three maps; the threads and the user of every session object, tracked or not; the
      user each thread was made for; and a supply of unused ids. */
  datatype State = State(
    sessions: map<string, SessionId>,
    threadMap: map<Key, ThreadId>,
    undo: map<ThreadId, UndoId>,
    threads: map<SessionId, set<ThreadId>>,
    userOf: map<SessionId, string>,
    owner: map<ThreadId, string>,
    next: nat)

  const EMPTY: State := State(map[], map[], map[], map[], map[], map[], 0)

  // ---- the lock sections ----

  function NewSession(s: State, user: string): (State, SessionId) {
    (s.(threads := s.threads[s.next := {}], userOf := s.userOf[s.next := user], next := s.next + 1), s.next)
  }

  function TrackSession(s: State, user: string): (State, SessionId) {
    var (s1, sid) := NewSession(s, user);
    (s1.(sessions := s1.sessions[user := sid]), sid)
  }

  function ThreadsOf(s: State, sid: SessionId): set<ThreadId> {
    if sid in s.threads then s.threads[sid] else {}
  }

  function CreateThread(s: State, sid: SessionId): (State, ThreadId) {
    var user := if sid in s.userOf then s.userOf[sid] else "";
    (s.(threads := s.threads[sid := ThreadsOf(s, sid) + {s.next}],
        owner := s.owner[s.next := user], next := s.next + 1), s.next)
  }

  predicate Mapped(s: State, tid: ThreadId) {
    tid in s.threadMap.Values
  }

  function MapThread(s: State, key: Key, tid: ThreadId): State {
    s.(threadMap := s.threadMap[key := tid])
  }

  function NewUndo(s: State, tid: ThreadId): State {
    s.(undo := s.undo[tid := s.next], next := s.next + 1)
  }

  function EnsureUndo(s: State, tid: ThreadId): State {
    if tid in s.undo then s else NewUndo(s, tid)
  }

  // ---- whole calls ----

  function GetOrCreate(s: State, user: string): (State, SessionId) {
    if user in s.sessions then (s, s.sessions[user]) else TrackSession(s, user)
  }

  predicate LiveMapping(s: State, key: Key, sid: SessionId) {
    key in s.threadMap && s.threadMap[key] in ThreadsOf(s, sid)
  }

  /** The thread an external id names itself, if it may be adopted. */
  function Adoptable(u: Uuids, s: State, key: Key, sid: SessionId): Option<ThreadId> {
    if key.external.None? then None
    else
      match u.parse(key.external.value)
      case None => None
      case Some(tid) => if !Mapped(s, tid) && tid in ThreadsOf(s, sid) then Some(tid) else None
  }

  /** A key without a live thread adopts the thread its external id names, or gets a new one. */
  function Place(u: Uuids, s: State, key: Key, sid: SessionId): (State, ThreadId) {
    var adopt := Adoptable(u, s, key, sid);
    if adopt.Some? then (EnsureUndo(MapThread(s, key, adopt.value), adopt.value), adopt.value)
    else
      var (s1, tid) := CreateThread(s, sid);
      (NewUndo(MapThread(s1, key, tid), tid), tid)
  }

  function Resolve(u: Uuids, s: State, key: Key): (State, SessionId, ThreadId) {
    var (s1, sid) := GetOrCreate(s, key.user);
    if LiveMapping(s1, key, sid) then (s1, sid, s1.threadMap[key])
    else
      var (s2, tid) := Place(u, s1, key, sid);
      (s2, sid, tid)
  }

  function RegisterKey(u: Uuids, user: string, channel: string, tid: ThreadId): Key {
    Key(user, channel, Some(u.show(tid)))
  }

  function Register(u: Uuids, s: State, user: string, channel: string, tid: ThreadId, sid: SessionId): State {
    var s1 := EnsureUndo(MapThread(s, RegisterKey(u, user, channel, tid), tid), tid);
    if user in s1.sessions then s1 else s1.(sessions := s1.sessions[user := sid])
  }

  function GetUndo(s: State, tid: ThreadId): (State, UndoId) {
    var s1 := EnsureUndo(s, tid);
    (s1, s1.undo[tid])
  }

  /** The threads whose undo managers go: those of stale users whose session can be locked. */
  function StaleThreads(s: State, stale: set<string>, contended: set<string>): set<ThreadId> {
    set user, tid | user in stale && user !in contended && user in s.sessions
                    && tid in ThreadsOf(s, s.sessions[user]) :: tid
  }

  function Prune(s: State, stale: set<string>, contended: set<string>): State {
    s.(sessions := map user | user in s.sessions && user !in stale :: s.sessions[user],
       threadMap := map key | key in s.threadMap && key.user !in stale :: s.threadMap[key],
       undo := map tid | tid in s.undo && tid !in StaleThreads(s, stale, contended) :: s.undo[tid])
  }

  // ---- the manager ----

  class SessionManager {
    const uuids: Uuids
    var sessions: map<string, SessionId>
    var threadMap: map<Key, ThreadId>
    var undo: map<ThreadId, UndoId>
    var threads: map<SessionId, set<ThreadId>>
    var userOf: map<SessionId, string>
    var owner: map<ThreadId, string>
    var next: nat

    function Snapshot(): State
      reads this
    {
      State(sessions, threadMap, undo, threads, userOf, owner, next)
    }

    constructor (uuids: Uuids)
      ensures this.uuids == uuids && Snapshot() == EMPTY
    {
      this.uuids := uuids;
      sessions, threadMap, undo := map[], map[], map[];
      threads, userOf, owner, next := map[], map[], map[], 0;
    }

    method GetOrCreateSession(user: string) returns (sid: SessionId)
      modifies this
      ensures (Snapshot(), sid) == GetOrCreate(old(Snapshot()), user)
    {
      if user in sessions {
        return sessions[user];
      }
      sid := next;
      next := next + 1;
      threads := threads[sid := {}];
      userOf := userOf[sid := user];
      sessions := sessions[user := sid];
    }

    method AddThread(sid: SessionId) returns (tid: ThreadId)
      modifies this`threads, this`owner, this`next
      ensures (Snapshot(), tid) == CreateThread(old(Snapshot()), sid)
    {
      tid := next;
      next := next + 1;
      owner := owner[tid := if sid in userOf then userOf[sid] else ""];
      threads := threads[sid := (if sid in threads then threads[sid] else {}) + {tid}];
    }

    method InsertUndo(tid: ThreadId)
      modifies this`undo, this`next
      ensures Snapshot() == NewUndo(old(Snapshot()), tid)
    {
      undo := undo[tid := next];
      next := next + 1;
    }

    method ResolveThread(key: Key) returns (sid: SessionId, tid: ThreadId)
      modifies this
      ensures (Snapshot(), sid, tid) == Resolve(uuids, old(Snapshot()), key)
    {
      sid := GetOrCreateSession(key.user);
      if key in threadMap && sid in threads && threadMap[key] in threads[sid] {
        return sid, threadMap[key];
      }
      if key.external.Some? {
        var parsed := uuids.parse(key.external.value);
        if parsed.Some? {
          var uuid := parsed.value;
          if uuid !in threadMap.Values && sid in threads && uuid in threads[sid] {
            threadMap := threadMap[key := uuid];
            if uuid !in undo {
              InsertUndo(uuid);
            }
            return sid, uuid;
          }
        }
      }
      tid := AddThread(sid);
      threadMap := threadMap[key := tid];
      InsertUndo(tid);
    }

    method RegisterThread(user: string, channel: string, tid: ThreadId, sid: SessionId)
      modifies this
      ensures Snapshot() == Register(uuids, old(Snapshot()), user, channel, tid, sid)
    {
      threadMap := threadMap[Key(user, channel, Some(uuids.show(tid))) := tid];
      if tid !in undo {
        InsertUndo(tid);
      }
      if user !in sessions {
        sessions := sessions[user := sid];
      }
    }

    method GetUndoManager(tid: ThreadId) returns (mgr: UndoId)
      modifies this
      ensures (Snapshot(), mgr) == GetUndo(old(Snapshot()), tid)
    {
      if tid !in undo {
        InsertUndo(tid);
      }
      mgr := undo[tid];
    }

    /** The threads of stale users whose session is not contended. */
    method CollectThreads(stale: set<string>, contended: set<string>) returns (ids: set<ThreadId>)
      requires stale <= sessions.Keys
      ensures ids == StaleThreads(Snapshot(), stale, contended)
    {
      ids := {};
      var todo := stale;
      while todo != {}
        invariant todo <= stale
        invariant forall tid :: tid in ids <==>
                    exists user :: user in stale - todo && user !in contended
                                   && tid in ThreadsOf(Snapshot(), sessions[user])
        decreases todo
      {
        var user :| user in todo;
        if user !in contended && sessions[user] in threads {
          ids := ids + threads[sessions[user]];
        }
        todo := todo - {user};
      }
    }

    method RemoveSessions(stale: set<string>) returns (count: nat)
      requires stale <= sessions.Keys
      modifies this`sessions
      ensures sessions == map user | user in old(sessions) && user !in stale :: old(sessions)[user]
      ensures count == |stale|
    {
      count := 0;
      var todo := stale;
      while todo != {}
        invariant todo <= stale && count == |stale| - |todo|
        invariant forall user :: user in sessions <==> user in old(sessions) && user !in stale - todo
        invariant forall user :: user in sessions ==> sessions[user] == old(sessions)[user]
        decreases todo
      {
        var user :| user in todo;
        sessions := map u | u in sessions && u != user :: sessions[u];
        todo := todo - {user};
        count := count + 1;
      }
    }

    /** `stale` are the users found idle, `contended` those whose session is locked when
        the thread ids are collected. */
    method PruneStaleSessions(stale: set<string>, contended: set<string>) returns (count: nat)
      requires stale <= sessions.Keys
      modifies this
      ensures Snapshot() == Prune(old(Snapshot()), stale, contended) && count == |stale|
    {
      var ids := CollectThreads(stale, contended);
      count := RemoveSessions(stale);
      threadMap := map key | key in threadMap && key.user !in stale :: threadMap[key];
      undo := map tid | tid in undo && tid !in ids :: undo[tid];
    }
  }
}
