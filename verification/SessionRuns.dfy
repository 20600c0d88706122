/** Runs of session-manager calls that do not overlap, mixed with what other code does to the
    sessions it was handed: creating, hydrating and dropping threads. */
module SessionRuns {
  import opened Wrappers
  import opened SessionManagers

  // ---- the invariant ----

  /** A tracked session is a session of the user it is tracked under. */
  ghost predicate SessionsOwned(s: State) {
    && s.threads.Keys == s.userOf.Keys
    && (forall user :: user in s.sessions ==>
          s.sessions[user] in s.userOf && s.userOf[s.sessions[user]] == user)
  }

  /** A thread sits only in sessions of the user it was made for. */
  ghost predicate ThreadsOwned(s: State) {
    forall sid, tid :: sid in s.userOf && tid in ThreadsOf(s, sid) ==>
      tid in s.owner && s.owner[tid] == s.userOf[sid]
  }

  /** A mapped thread was made for the user of its key and has an undo manager. */
  ghost predicate MappingsOwned(s: State) {
    forall key :: key in s.threadMap ==>
      && s.threadMap[key] in s.owner && s.owner[s.threadMap[key]] == key.user
      && s.threadMap[key] in s.undo
  }

  /** No thread is reachable under two keys. */
  ghost predicate Injective(s: State) {
    forall a, b :: a in s.threadMap && b in s.threadMap && s.threadMap[a] == s.threadMap[b] ==> a == b
  }

  /** The supply of ids is unused. */
  ghost predicate Unused(s: State) {
    && (forall sid :: sid in s.userOf ==> sid < s.next)
    && (forall tid :: tid in s.owner ==> tid < s.next)
  }

  ghost predicate Inv(s: State) {
    SessionsOwned(s) && ThreadsOwned(s) && MappingsOwned(s) && Injective(s) && Unused(s)
  }

  // ---- runs ----

  datatype Op =
    | Get(user: string)
    | ResolveKey(key: Key)
    | RegisterThread(user: string, channel: string, tid: ThreadId, sid: SessionId)
    | Undo(tid: ThreadId)
    | PruneUsers(stale: set<string>, contended: set<string>)
    | Create(sid: SessionId)                 // create_thread by a holder of the session
    | Insert(sid: SessionId, tid: ThreadId)  // a thread hydrated under its stored id
    | Drop(sid: SessionId, tid: ThreadId)

  function InsertThread(s: State, sid: SessionId, tid: ThreadId): State {
    var user := if sid in s.userOf then s.userOf[sid] else "";
    s.(threads := s.threads[sid := ThreadsOf(s, sid) + {tid}], owner := s.owner[tid := user],
       next := if tid < s.next then s.next else tid + 1)
  }

  function DropThread(s: State, sid: SessionId, tid: ThreadId): State {
    s.(threads := s.threads[sid := ThreadsOf(s, sid) - {tid}])
  }

  function Apply(u: Uuids, s: State, op: Op): State {
    match op
    case Get(user) => GetOrCreate(s, user).0
    case ResolveKey(key) => Resolve(u, s, key).0
    case RegisterThread(user, channel, tid, sid) => Register(u, s, user, channel, tid, sid)
    case Undo(tid) => GetUndo(s, tid).0
    case PruneUsers(stale, contended) => Prune(s, stale, contended)
    case Create(sid) => CreateThread(s, sid).0
    case Insert(sid, tid) => InsertThread(s, sid, tid)
    case Drop(sid, tid) => DropThread(s, sid, tid)
  }

  /** What callers owe: sessions are ones handed out, a hydrated thread is the user's own, and
      a registered one is the user's own and not mapped under another key. */
  ghost predicate Proper(u: Uuids, s: State, op: Op) {
    match op
    case Create(sid) => sid in s.userOf
    case Insert(sid, tid) => sid in s.userOf && (tid in s.owner ==> s.owner[tid] == s.userOf[sid])
    case Drop(sid, _) => sid in s.userOf
    case RegisterThread(user, channel, tid, sid) =>
      && sid in s.userOf && s.userOf[sid] == user
      && tid in s.owner && s.owner[tid] == user
      && (forall key :: key in s.threadMap && s.threadMap[key] == tid ==> key == RegisterKey(u, user, channel, tid))
    case _ => true
  }

  function Run(u: Uuids, s: State, ops: seq<Op>): State
    decreases |ops|
  {
    if ops == [] then s else Run(u, Apply(u, s, ops[0]), ops[1..])
  }

  ghost predicate ProperRun(u: Uuids, s: State, ops: seq<Op>)
    decreases |ops|
  {
    ops == [] || (Proper(u, s, ops[0]) && ProperRun(u, Apply(u, s, ops[0]), ops[1..]))
  }

  // ---- every call keeps the invariant ----

  /** Nothing that was there is lost, and no other key is touched. */
  ghost predicate Extends(s: State, s1: State, key: Key) {
    && (forall v :: v in s.sessions ==> v in s1.sessions && s1.sessions[v] == s.sessions[v])
    && (forall k :: k in s.threadMap && k != key ==> k in s1.threadMap && s1.threadMap[k] == s.threadMap[k])
    && (forall x, t :: t in ThreadsOf(s, x) ==> t in ThreadsOf(s1, x))
  }

  lemma {:induction false} GetKeeps(s: State, user: string)
    requires Inv(s)
    ensures var (s1, sid) := GetOrCreate(s, user);
            Inv(s1) && user in s1.sessions && s1.sessions[user] == sid
  {
    if user !in s.sessions {
      var s1 := TrackSession(s, user).0;
      assert SessionsOwned(s1);
      assert ThreadsOwned(s1);
    }
  }

  lemma {:induction false} GetExtends(s: State, user: string, key: Key)
    requires Inv(s)
    ensures Extends(s, GetOrCreate(s, user).0, key)
  {
    assert forall x, t :: t in ThreadsOf(s, x) ==> x in s.userOf;
  }

  lemma {:induction false} CreateKeeps(s: State, sid: SessionId)
    requires Inv(s) && sid in s.userOf
    ensures var (s1, tid) := CreateThread(s, sid);
            Inv(s1) && tid !in s.owner && tid in s1.owner && s1.owner[tid] == s.userOf[sid]
  {
    var (s1, tid) := CreateThread(s, sid);
    assert SessionsOwned(s1);
    forall x, t | x in s1.userOf && t in ThreadsOf(s1, x)
      ensures t in s1.owner && s1.owner[t] == s1.userOf[x]
    {
      if t in ThreadsOf(s, x) {
        assert t in s.owner && s.owner[t] == s.userOf[x] && t != tid;
      }
    }
    assert ThreadsOwned(s1);
  }

  /** Mapping an unmapped thread of the user and giving it an undo manager. */
  lemma {:induction false} MapKeeps(s: State, key: Key, tid: ThreadId, s1: State)
    requires Inv(s) && tid in s.owner && s.owner[tid] == key.user
    requires forall k :: k in s.threadMap && s.threadMap[k] == tid ==> k == key
    requires s1 == EnsureUndo(MapThread(s, key, tid), tid) || s1 == NewUndo(MapThread(s, key, tid), tid)
    ensures Inv(s1)
  {
    assert s1.sessions == s.sessions && s1.threads == s.threads && s1.userOf == s.userOf && s1.owner == s.owner;
    assert s1.threadMap == s.threadMap[key := tid] && s.next <= s1.next;
    assert tid in s1.undo && s.undo.Keys <= s1.undo.Keys;
    MapKeepsInjective(s, key, tid);
    MapKeepsOwners(s, key, tid, s1);
    SamePlaces(s, s1);
  }

  lemma {:induction false} SamePlaces(s: State, s1: State)
    requires SessionsOwned(s) && ThreadsOwned(s) && Unused(s) && s.next <= s1.next
    requires s1.sessions == s.sessions && s1.threads == s.threads && s1.userOf == s.userOf && s1.owner == s.owner
    ensures SessionsOwned(s1) && ThreadsOwned(s1) && Unused(s1)
  {
    assert forall sid :: ThreadsOf(s1, sid) == ThreadsOf(s, sid);
  }

  lemma {:induction false} MapKeepsOwners(s: State, key: Key, tid: ThreadId, s1: State)
    requires MappingsOwned(s) && tid in s.owner && s.owner[tid] == key.user && s1.owner == s.owner
    requires s1.threadMap == s.threadMap[key := tid] && tid in s1.undo && s.undo.Keys <= s1.undo.Keys
    ensures MappingsOwned(s1)
  {
  }

  lemma {:induction false} MapKeepsInjective(s: State, key: Key, tid: ThreadId)
    requires Injective(s) && forall k :: k in s.threadMap && s.threadMap[k] == tid ==> k == key
    ensures Injective(MapThread(s, key, tid))
  {
  }

  /** What a resolution leaves behind: the key mapped to a live thread of its own user. */
  ghost predicate Resolved(s: State, key: Key, sid: SessionId, tid: ThreadId) {
    && key.user in s.sessions && s.sessions[key.user] == sid
    && key in s.threadMap && s.threadMap[key] == tid
    && tid in ThreadsOf(s, sid)
  }

  lemma {:induction false} ResolveKeeps(u: Uuids, s: State, key: Key)
    requires Inv(s)
    ensures var (s1, sid, tid) := Resolve(u, s, key);
            Inv(s1) && Resolved(s1, key, sid, tid)
  {
    GetKeeps(s, key.user);
    var (g, sid) := GetOrCreate(s, key.user);
    if !LiveMapping(g, key, sid) { PlaceKeeps(u, g, key, sid); }
  }

  lemma {:induction false} PlaceKeeps(u: Uuids, s: State, key: Key, sid: SessionId)
    requires Inv(s) && key.user in s.sessions && s.sessions[key.user] == sid
    ensures var (s1, tid) := Place(u, s, key, sid);
            Inv(s1) && Resolved(s1, key, sid, tid)
  {
    var adopt := Adoptable(u, s, key, sid);
    if adopt.Some? {
      MapKeeps(s, key, adopt.value, EnsureUndo(MapThread(s, key, adopt.value), adopt.value));
    } else {
      CreateKeeps(s, sid);
      var (c, tid) := CreateThread(s, sid);
      MapKeeps(c, key, tid, NewUndo(MapThread(c, key, tid), tid));
    }
  }

  lemma {:induction false} PlaceExtends(u: Uuids, s: State, key: Key, sid: SessionId)
    ensures Extends(s, Place(u, s, key, sid).0, key)
  {
  }

  lemma {:induction false} ExtendsTwice(a: State, b: State, c: State, key: Key)
    requires Extends(a, b, key) && Extends(b, c, key)
    ensures Extends(a, c, key)
  {
  }

  lemma {:induction false} ResolveExtends(u: Uuids, s: State, key: Key)
    requires Inv(s)
    ensures Extends(s, Resolve(u, s, key).0, key)
  {
    GetExtends(s, key.user, key);
    var (g, sid) := GetOrCreate(s, key.user);
    if !LiveMapping(g, key, sid) {
      PlaceExtends(u, g, key, sid);
      ExtendsTwice(s, g, Place(u, g, key, sid).0, key);
    }
  }

  lemma {:induction false} RegisterKeeps(u: Uuids, s: State, op: Op)
    requires Inv(s) && op.RegisterThread? && Proper(u, s, op)
    ensures Inv(Apply(u, s, op))
  {
    var key := RegisterKey(u, op.user, op.channel, op.tid);
    MapKeeps(s, key, op.tid, EnsureUndo(MapThread(s, key, op.tid), op.tid));
  }

  lemma {:induction false} StaleThreadsAreTheirs(s: State, stale: set<string>, contended: set<string>)
    requires Inv(s)
    ensures forall tid :: tid in StaleThreads(s, stale, contended) ==> tid in s.owner && s.owner[tid] in stale
  {
  }

  lemma {:induction false} PruneKeeps(s: State, stale: set<string>, contended: set<string>)
    requires Inv(s)
    ensures Inv(Prune(s, stale, contended))
    ensures var p := Prune(s, stale, contended);
            forall key :: key in p.threadMap ==> p.undo[p.threadMap[key]] == s.undo[s.threadMap[key]]
  {
    var p := Prune(s, stale, contended);
    forall key | key in p.threadMap
      ensures p.threadMap[key] in p.undo
    {
      StaleThreadsAreTheirs(s, stale, contended);
    }
    assert SessionsOwned(p) && ThreadsOwned(p) && MappingsOwned(p) && Injective(p);
  }

  lemma {:induction false} ApplyKeeps(u: Uuids, s: State, op: Op)
    requires Inv(s) && Proper(u, s, op)
    ensures Inv(Apply(u, s, op))
  {
    match op
    case Get(user) => GetKeeps(s, user);
    case ResolveKey(key) => ResolveKeeps(u, s, key);
    case RegisterThread(_, _, _, _) => RegisterKeeps(u, s, op);
    case Undo(tid) => UndoKeeps(s, tid);
    case PruneUsers(stale, contended) => PruneKeeps(s, stale, contended);
    case Create(sid) => CreateKeeps(s, sid);
    case Insert(sid, tid) => InsertKeeps(s, sid, tid);
    case Drop(sid, tid) => DropKeeps(s, sid, tid);
  }

  lemma {:induction false} UndoKeeps(s: State, tid: ThreadId)
    requires Inv(s)
    ensures Inv(GetUndo(s, tid).0)
  {
  }

  lemma {:induction false} InsertKeeps(s: State, sid: SessionId, tid: ThreadId)
    requires Inv(s) && sid in s.userOf && (tid in s.owner ==> s.owner[tid] == s.userOf[sid])
    ensures Inv(InsertThread(s, sid, tid))
  {
  }

  lemma {:induction false} DropKeeps(s: State, sid: SessionId, tid: ThreadId)
    requires Inv(s) && sid in s.userOf
    ensures Inv(DropThread(s, sid, tid))
  {
  }

  lemma {:induction false} RunKeeps(u: Uuids, s: State, ops: seq<Op>)
    requires Inv(s) && ProperRun(u, s, ops)
    ensures Inv(Run(u, s, ops))
    decreases |ops|
  {
    if ops != [] {
      ApplyKeeps(u, s, ops[0]);
      RunKeeps(u, Apply(u, s, ops[0]), ops[1..]);
    }
  }

  lemma {:induction false} EmptyIsFine()
    ensures Inv(EMPTY)
  {
  }

  /** In every run of calls that do not overlap, from an empty manager on, no two keys share a
      thread, and every mapped thread has an undo manager and was made for the user of its key. */
  lemma {:induction false} MappingsAreSound(u: Uuids, ops: seq<Op>, a: Key, b: Key)
    requires ProperRun(u, EMPTY, ops)
    ensures var s := Run(u, EMPTY, ops);
            && (a in s.threadMap ==>
                  && s.threadMap[a] in s.undo
                  && s.threadMap[a] in s.owner && s.owner[s.threadMap[a]] == a.user)
            && (a in s.threadMap && b in s.threadMap && a != b ==> s.threadMap[a] != s.threadMap[b])
  {
    EmptyIsFine();
    RunKeeps(u, EMPTY, ops);
  }

  // ---- keys are stable ----

  /** The calls that can take a resolved key away from its thread: pruning the user, dropping
      the thread, and registering another thread under that very key. */
  predicate Disturbs(u: Uuids, op: Op, key: Key, sid: SessionId, tid: ThreadId) {
    match op
    case PruneUsers(stale, _) => key.user in stale
    case Drop(x, t) => x == sid && t == tid
    case RegisterThread(user, channel, t, _) => RegisterKey(u, user, channel, t) == key && t != tid
    case _ => false
  }

  lemma {:induction false} StaysResolved(u: Uuids, s: State, op: Op, key: Key, sid: SessionId, tid: ThreadId)
    requires Inv(s) && Proper(u, s, op) && Resolved(s, key, sid, tid)
    requires !Disturbs(u, op, key, sid, tid)
    ensures Resolved(Apply(u, s, op), key, sid, tid)
  {
    match op
    case Get(user) => GetExtends(s, user, key);
    case ResolveKey(k) =>
      ResolveExtends(u, s, k);
      if k == key { LiveKeyIsKept(u, s, key, sid, tid); }
    case RegisterThread(_, _, _, _) => RegisterSpares(u, s, op, key, sid, tid);
    case _ =>
  }

  lemma {:induction false} RegisterSpares(u: Uuids, s: State, op: Op, key: Key, sid: SessionId, tid: ThreadId)
    requires op.RegisterThread? && Resolved(s, key, sid, tid) && !Disturbs(u, op, key, sid, tid)
    ensures Resolved(Apply(u, s, op), key, sid, tid)
  {
  }

  /** A key whose thread is live resolves to it and changes nothing. */
  lemma {:induction false} LiveKeyIsKept(u: Uuids, s: State, key: Key, sid: SessionId, tid: ThreadId)
    requires Resolved(s, key, sid, tid)
    ensures Resolve(u, s, key) == (s, sid, tid)
  {
  }

  ghost predicate Undisturbed(u: Uuids, ops: seq<Op>, key: Key, sid: SessionId, tid: ThreadId) {
    forall i :: 0 <= i < |ops| ==> !Disturbs(u, ops[i], key, sid, tid)
  }

  lemma {:induction false} RunStaysResolved(u: Uuids, s: State, ops: seq<Op>, key: Key, sid: SessionId, tid: ThreadId)
    requires Inv(s) && ProperRun(u, s, ops) && Resolved(s, key, sid, tid)
    requires Undisturbed(u, ops, key, sid, tid)
    ensures Resolved(Run(u, s, ops), key, sid, tid)
    decreases |ops|
  {
    if ops != [] {
      StaysResolved(u, s, ops[0], key, sid, tid);
      ApplyKeeps(u, s, ops[0]);
      RunStaysResolved(u, Apply(u, s, ops[0]), ops[1..], key, sid, tid);
    }
  }

  /** Resolving a key again, after any calls that leave it alone, gives the same session and
      the same live thread and changes nothing. */
  lemma {:induction false} KeysAreStable(u: Uuids, s: State, key: Key, ops: seq<Op>)
    requires Inv(s)
    requires var (s1, sid, tid) := Resolve(u, s, key);
             ProperRun(u, s1, ops) && Undisturbed(u, ops, key, sid, tid)
    ensures var (s1, sid, tid) := Resolve(u, s, key);
            var s2 := Run(u, s1, ops);
            Resolve(u, s2, key) == (s2, sid, tid) && tid in ThreadsOf(s2, sid)
  {
    ResolveKeeps(u, s, key);
    var (s1, sid, tid) := Resolve(u, s, key);
    RunStaysResolved(u, s1, ops, key, sid, tid);
    LiveKeyIsKept(u, Run(u, s1, ops), key, sid, tid);
  }

  /** Two keys never share a thread, whatever external ids they carry. */
  lemma {:induction false} KeysAreIsolated(u: Uuids, s: State, key: Key, ops: seq<Op>, other: Key)
    requires Inv(s) && key != other
    requires var (s1, sid, tid) := Resolve(u, s, key);
             ProperRun(u, s1, ops) && Undisturbed(u, ops, key, sid, tid)
    ensures var (s1, _, tid) := Resolve(u, s, key);
            Resolve(u, Run(u, s1, ops), other).2 != tid
  {
    ResolveKeeps(u, s, key);
    var (s1, sid, tid) := Resolve(u, s, key);
    RunStaysResolved(u, s1, ops, key, sid, tid);
    RunKeeps(u, s1, ops);
    OtherKeyGoesElsewhere(u, Run(u, s1, ops), key, sid, tid, other);
  }

  lemma {:induction false} OtherKeyGoesElsewhere(
    u: Uuids, s: State, key: Key, sid: SessionId, tid: ThreadId, other: Key)
    requires Inv(s) && Resolved(s, key, sid, tid) && key != other
    ensures Resolve(u, s, other).2 != tid
  {
    ResolveKeeps(u, s, other);
    ResolveExtends(u, s, other);
  }

  // ---- pruning ----

  /** A pruned user has no session and no mapping left; what other users' keys map to and the
      undo managers of those threads are untouched; and the user's next resolution makes a
      new session with one new thread, whatever external id it carries. */
  lemma {:induction false} PruneForgets(u: Uuids, s: State, stale: set<string>, contended: set<string>, key: Key)
    requires Inv(s)
    ensures var p := Prune(s, stale, contended);
            && (forall user :: user in stale ==> user !in p.sessions)
            && (forall k :: k in p.threadMap <==> k in s.threadMap && k.user !in stale)
            && (forall k :: k in p.threadMap ==>
                  p.threadMap[k] == s.threadMap[k] && p.undo[p.threadMap[k]] == s.undo[s.threadMap[k]])
            && (key.user in stale ==>
                  var (s1, sid, tid) := Resolve(u, p, key);
                  sid !in s.userOf && tid !in s.owner && ThreadsOf(s1, sid) == {tid})
  {
    PruneKeeps(s, stale, contended);
    var p := Prune(s, stale, contended);
    if key.user in stale {
      var (g, sid) := GetOrCreate(p, key.user);
      assert ThreadsOf(g, sid) == {};
    }
  }

  /** What a prune drops: the sessions and keys of the stale users, and the undo managers of the
      threads in those of their sessions that can be locked; everything else stays as it was. */
  lemma {:induction false} PruneDropsExactly(
    s: State, stale: set<string>, contended: set<string>, user: string, key: Key, tid: ThreadId)
    ensures var p := Prune(s, stale, contended);
            && (user in p.sessions <==> user in s.sessions && user !in stale)
            && (user in p.sessions ==> p.sessions[user] == s.sessions[user])
            && (key in p.threadMap <==> key in s.threadMap && key.user !in stale)
            && (key in p.threadMap ==> p.threadMap[key] == s.threadMap[key])
            && (tid in p.undo <==> tid in s.undo && !InLockedStale(s, stale, contended, tid))
            && (tid in p.undo ==> p.undo[tid] == s.undo[tid])
            && p.threads == s.threads && p.userOf == s.userOf && p.owner == s.owner && p.next == s.next
  {
    if InLockedStale(s, stale, contended, tid) {
      var holder :| holder in stale && holder !in contended && holder in s.sessions
                    && s.sessions[holder] in s.threads && tid in s.threads[s.sessions[holder]];
      assert tid in ThreadsOf(s, s.sessions[holder]);
    }
  }

  /** The thread is in the session of a stale user, and that session can be locked. */
  predicate InLockedStale(s: State, stale: set<string>, contended: set<string>, tid: ThreadId) {
    exists user :: user in stale && user !in contended && user in s.sessions
                   && s.sessions[user] in s.threads && tid in s.threads[s.sessions[user]]
  }

  // ---- adoption and registration ----

  ghost predicate ShowsBack(u: Uuids) {
    forall tid: ThreadId :: u.parse(u.show(tid)) == Some(tid)
  }

  /** A thread made in the user's session under no key is adopted by the first channel that
      names it by its own id; the same id from another channel gets a thread of its own. */
  lemma {:induction false} FirstChannelAdopts(u: Uuids, s: State, key: Key, tid: ThreadId, other: Key)
    requires Inv(s) && ShowsBack(u)
    requires key.user in s.sessions && tid in ThreadsOf(s, s.sessions[key.user]) && !Mapped(s, tid)
    requires key.external == Some(u.show(tid)) && key !in s.threadMap
    requires other != key && other.external == key.external
    ensures var (s1, sid, got) := Resolve(u, s, key);
            && sid == s.sessions[key.user] && got == tid && tid in s1.undo
            && s1.threads == s.threads
            && Resolve(u, s1, other).2 != tid
  {
    assert Adoptable(u, s, key, s.sessions[key.user]) == Some(tid);
    ResolveKeeps(u, s, key);
    KeysAreIsolated(u, s, key, [], other);
  }

  /** A registered thread is found under its own id, without a new thread; registering it
      again changes nothing. */
  lemma {:induction false} RegisteredIsFound(
    u: Uuids, s: State, user: string, channel: string, tid: ThreadId, sid: SessionId)
    requires tid in ThreadsOf(s, if user in s.sessions then s.sessions[user] else sid)
    ensures var s1 := Register(u, s, user, channel, tid, sid);
            && Resolve(u, s1, Key(user, channel, Some(u.show(tid)))) == (s1, s1.sessions[user], tid)
            && Register(u, s1, user, channel, tid, sid) == s1
            && (tid in s.undo ==> s1.undo == s.undo)
  {
    var s1 := Register(u, s, user, channel, tid, sid);
    var key := RegisterKey(u, user, channel, tid);
    assert s1.threads == s.threads && key in s1.threadMap && s1.threadMap[key] == tid && tid in s1.undo;
    LiveKeyIsKept(u, s1, key, s1.sessions[user], tid);
    RegisteredStays(u, s1, user, channel, tid, sid);
  }

  /** What a registration leaves: the thread under its own id as external id and every other key as
      before; the tracked session, else the given one; the undo manager the thread had, else a new
      one; and nothing else changed. */
  lemma {:induction false} RegisterLeavesExactly(
    u: Uuids, s: State, user: string, channel: string, tid: ThreadId, sid: SessionId)
    ensures var s1, key := Register(u, s, user, channel, tid, sid), Key(user, channel, Some(u.show(tid)));
            && s1.threadMap == s.threadMap[key := tid]
            && s1.sessions == (if user in s.sessions then s.sessions else s.sessions[user := sid])
            && s1.undo == (if tid in s.undo then s.undo else s.undo[tid := s.next])
            && s1.threads == s.threads && s1.userOf == s.userOf && s1.owner == s.owner
  {
    var mapped := MapThread(s, RegisterKey(u, user, channel, tid), tid);
    assert mapped.sessions == s.sessions && mapped.undo == s.undo && mapped.next == s.next;
    var served := EnsureUndo(mapped, tid);
    assert served.sessions == s.sessions && served.threadMap == mapped.threadMap;
  }

  lemma {:induction false} RegisteredStays(
    u: Uuids, s: State, user: string, channel: string, tid: ThreadId, sid: SessionId)
    requires user in s.sessions && tid in s.undo
    requires RegisterKey(u, user, channel, tid) in s.threadMap && s.threadMap[RegisterKey(u, user, channel, tid)] == tid
    ensures Register(u, s, user, channel, tid, sid) == s
  {
    assert s.threadMap[RegisterKey(u, user, channel, tid) := tid] == s.threadMap;
  }

  /** Registration does not look at what is mapped: it keeps threads apart exactly when no
      other key has the thread already. */
  lemma {:induction false} RegisterSharesExactlyWhen(
    u: Uuids, s: State, user: string, channel: string, tid: ThreadId, sid: SessionId)
    requires Injective(s)
    ensures Injective(Register(u, s, user, channel, tid, sid)) <==>
            forall key :: key in s.threadMap && s.threadMap[key] == tid ==> key == RegisterKey(u, user, channel, tid)
  {
    var own := RegisterKey(u, user, channel, tid);
    var s1 := Register(u, s, user, channel, tid, sid);
    assert s1.threadMap == s.threadMap[own := tid];
    forall key | key in s.threadMap && s.threadMap[key] == tid && key != own
      ensures !Injective(s1)
    {
      assert key in s1.threadMap && own in s1.threadMap && s1.threadMap[key] == s1.threadMap[own];
    }
  }

  /** That happens: a thread made for one channel and then registered for another. */
  lemma {:induction false} RegisterCanShareAThread(u: Uuids)
    ensures var (s1, sid, tid) := Resolve(u, EMPTY, Key("ana", "web", None));
            !Injective(Register(u, s1, "ana", "signal", tid, sid))
  {
    var (s1, sid, tid) := Resolve(u, EMPTY, Key("ana", "web", None));
    assert s1.threadMap == map[Key("ana", "web", None) := tid];
    assert Key("ana", "web", None) in s1.threadMap;
    RegisterSharesExactlyWhen(u, s1, "ana", "signal", tid, sid);
  }
}
