/** Whole runs of the scheduler: its capacity, and when a worker can slip out of its map. */
module SchedulerRuns {
  import opened Wrappers
  import opened Schedulers

  // ---- single calls ----

  /** What a scheduling call answers and leaves. A scheduled job is fine as it is; a full map is the
      first refusal and the job's own state the second, and neither changes anything; else the job
      runs in a new worker, under a cleanup task to be spawned. */
  lemma {:induction false} ScheduleEndsExactly(s: State, job: JobId, moves: bool)
    ensures var (t, r) := ScheduleStep(s, job, moves);
            && (job in s.jobs ==> r == Ok(()) && t == s)
            && (job !in s.jobs && |s.jobs| >= s.max ==> r == Err(MaxJobsExceeded) && t == s)
            && (job !in s.jobs && |s.jobs| < s.max && !moves ==> r == Err(ContextError) && t == s)
            && (job !in s.jobs && |s.jobs| < s.max && moves ==>
                  && r == Ok(()) && t.jobs.Keys == s.jobs.Keys + {job} && t.jobs[job] == |s.workers|
                  && (forall other :: other in s.jobs ==> t.jobs[other] == s.jobs[other])
                  && t.workers == s.workers + [Worker(job, Running)]
                  && t.watchers == s.watchers + [Watcher(job, Unspawned)]
                  && t.max == s.max && t.stopping == s.stopping)
  {
  }

  /** What a stop leaves: no entry for the job and the others as they were; its worker ended if it
      ended by itself, asked to end if not, and running on only if the call was dropped. */
  lemma {:induction false} StopEndsExactly(s: State, job: JobId, finishes: bool, dropped: bool)
    ensures var t := StopCall(s, job, finishes, dropped);
            && t.jobs.Keys == s.jobs.Keys - {job}
            && (forall other :: other in t.jobs ==> t.jobs[other] == s.jobs[other])
            && |t.workers| == |s.workers| && t.watchers == s.watchers && t.max == s.max
            && (job !in s.jobs ==> t == s)
            && (job in s.jobs ==> t.stopping == None)
            && (forall w :: 0 <= w < |s.workers| && !(job in s.jobs && s.jobs[job] == w) ==>
                  t.workers[w] == s.workers[w])
            && (job in s.jobs && s.jobs[job] < |s.workers| ==>
                  var w := s.jobs[job];
                  t.workers[w] == Worker(s.workers[w].job,
                                         if finishes || s.workers[w].state.Ended? then Ended
                                         else if dropped then s.workers[w].state else Aborting))
  {
  }

  /** A cleanup of finished jobs takes the entries of ended workers, all of them and no others. */
  lemma {:induction false} CleanupEndsExactly(s: State, job: JobId)
    ensures var t := CleanupStep(s);
            && (job in t.jobs <==>
                  job in s.jobs && !(s.jobs[job] < |s.workers| && s.workers[s.jobs[job]].state.Ended?))
            && (job in t.jobs ==> t.jobs[job] == s.jobs[job])
            && t.workers == s.workers && t.watchers == s.watchers && t.max == s.max && t.stopping == s.stopping
  {
  }

  /** A cleanup task looks only once it is spawned, and removes only after a look that found the
      entry gone or its worker ended. */
  lemma {:induction false} WatcherMovesExactly(s: State, i: nat)
    requires i < |s.watchers|
    ensures var job, pc := s.watchers[i].job, s.watchers[i].pc;
            var free := job !in s.jobs
                        || (s.jobs[job] < |s.workers| && s.workers[s.jobs[job]].state.Ended?);
            && SpawnStep(s, i) == MovedTo(s, i, if pc.Unspawned? then Polling else pc)
            && PollStep(s, i) == MovedTo(s, i, if pc.Polling? && free then Removing else pc)
            && RemoveStep(s, i) == (if pc.Removing? then MovedTo(s, i, Gone).(jobs := s.jobs - {job}) else s)
  {
    assert s.watchers[i := s.watchers[i]] == s.watchers;
  }

  function MovedTo(s: State, i: nat, pc: WatcherPc): State
    requires i < |s.watchers|
  {
    s.(watchers := s.watchers[i := Watcher(s.watchers[i].job, pc)])
  }

  // ---- capacity ----

  function Taken(s: State): nat {
    |s.jobs| + if s.stopping.Some? then 1 else 0
  }

  lemma {:induction false} RemovalShrinks(m: map<JobId, WorkerId>, job: JobId)
    ensures |m - {job}| == if job in m then |m| - 1 else |m|
  {
    assert (m - {job}).Keys == m.Keys - {job};
  }

  lemma {:induction false} PartIsSmaller(a: map<JobId, WorkerId>, b: map<JobId, WorkerId>)
    requires a.Keys <= b.Keys
    ensures |a| <= |b|
  {
    assert b.Keys == a.Keys + (b.Keys - a.Keys);
  }

  lemma {:induction false} TakenStep(s: State, e: Event)
    requires Taken(s) <= s.max
    ensures Taken(Next(s, e)) <= s.max && Next(s, e).max == s.max
  {
    match e
    case Schedule(job, moves) => if s.stopping.None? { ScheduleTakes(s, job, moves); }
    case ScheduleDrop(_, _) =>
    case Finish(_) =>
    case StopAbort =>
    case StopDrop =>
    case Spawn(_) =>
    case Poll(_) =>
    case Remove(i) => RemoveTakes(s, i);
    case StopTake(job) => if s.stopping.None? { StopTakes(s, job); }
    case Cleanup => CleanupTakes(s);
  }

  lemma {:induction false} ScheduleTakes(s: State, job: JobId, moves: bool)
    requires s.stopping.None? && Taken(s) <= s.max
    ensures Taken(ScheduleStep(s, job, moves).0) <= s.max
  {
    if job !in s.jobs { assert s.jobs[job := |s.workers|].Keys == s.jobs.Keys + {job}; }
  }

  lemma {:induction false} RemoveTakes(s: State, i: nat)
    ensures Taken(RemoveStep(s, i)) <= Taken(s)
  {
    if i < |s.watchers| { RemovalShrinks(s.jobs, s.watchers[i].job); }
  }

  lemma {:induction false} CleanupTakes(s: State)
    ensures Taken(CleanupStep(s)) <= Taken(s)
  {
    PartIsSmaller(CleanupStep(s).jobs, s.jobs);
  }

  lemma {:induction false} StopTakes(s: State, job: JobId)
    requires s.stopping.None?
    ensures Taken(StopTakeStep(s, job)) == Taken(s)
  {
    RemovalShrinks(s.jobs, job);
  }

  lemma {:induction false} TakenRun(s: State, es: seq<Event>)
    requires Taken(s) <= s.max
    ensures Taken(Run(s, es)) <= s.max && Run(s, es).max == s.max
    decreases |es|
  {
    if es != [] {
      TakenStep(s, es[0]);
      TakenRun(Next(s, es[0]), es[1..]);
    }
  }

  /** Under every interleaving the map never holds more jobs than may run in parallel. */
  lemma {:induction false} CapacityHolds(max: nat, es: seq<Event>)
    ensures |Run(Start(max), es).jobs| <= max
  {
    TakenRun(Start(max), es);
  }

  // ---- no entry is forgotten ----

  /** A cleanup task that will still look at the job, spawned or about to be. */
  predicate LooksAfter(s: State, i: nat, job: JobId) {
    i < |s.watchers| && s.watchers[i].job == job && !s.watchers[i].pc.Gone?
  }

  ghost predicate Watched(s: State) {
    forall job :: job in s.jobs ==> exists i :: LooksAfter(s, i, job)
  }

  lemma {:induction false} WatchedStep(s: State, e: Event)
    requires Watched(s)
    ensures Watched(Next(s, e))
  {
    var v := Next(s, e);
    forall job | job in v.jobs
      ensures exists i :: LooksAfter(v, i, job)
    {
      if job in s.jobs {
        var i :| LooksAfter(s, i, job);
        assert LooksAfter(v, i, job);
      } else {
        assert LooksAfter(v, |s.watchers|, job);
      }
    }
  }

  /** Every job in the map has a cleanup task that has not ended, or that the call which
      scheduled the job is about to spawn: no entry is left without one for good. */
  lemma {:induction false} EveryEntryIsWatched(s: State, es: seq<Event>)
    requires Watched(s)
    ensures Watched(Run(s, es))
    decreases |es|
  {
    if es != [] {
      WatchedStep(s, es[0]);
      EveryEntryIsWatched(Next(s, es[0]), es[1..]);
    }
  }

  /** A cleanup task that looks and then removes frees its entry exactly when its worker has
      ended. */
  lemma {:induction false} WatcherFreesExactlyWhen(s: State, i: nat)
    requires s.stopping.None? && i < |s.watchers| && s.watchers[i].pc.Polling? && s.watchers[i].job in s.jobs
    ensures var v := Next(Next(s, Poll(i)), Remove(i));
            s.watchers[i].job !in v.jobs <==> Finished(s, s.jobs[s.watchers[i].job])
  {
  }

  // ---- running workers ----

  /** A worker that runs is the one its job maps to, or the one being stopped. */
  predicate Tracked(s: State, w: WorkerId) {
    w < |s.workers| && ((s.workers[w].job in s.jobs && s.jobs[s.workers[w].job] == w) || s.stopping == Some(w))
  }

  ghost predicate AllTracked(s: State) {
    && (forall w :: 0 <= w < |s.workers| && s.workers[w].state.Running? ==> Tracked(s, w))
    && (forall job :: job in s.jobs ==>
          && s.jobs[job] < |s.workers| && s.workers[s.jobs[job]].job == job && s.stopping != Some(s.jobs[job]))
  }

  /** A cleanup task about to remove has nothing running to remove. */
  ghost predicate RemovesEnded(s: State) {
    forall i :: 0 <= i < |s.watchers| && s.watchers[i].pc.Removing? && s.watchers[i].job in s.jobs ==>
      Finished(s, s.jobs[s.watchers[i].job])
  }

  /** A job is not scheduled again between the last look of one of its cleanup tasks and the
      removal that follows it, and no stop is dropped while its worker runs. */
  ghost predicate Calm(s: State, e: Event) {
    && (e.StopDrop? && s.stopping.Some? ==> !IsRunning(s, s.stopping.value))
    && (e.Schedule? ==> forall i :: 0 <= i < |s.watchers| && s.watchers[i].job == e.job ==> !s.watchers[i].pc.Removing?)
  }

  ghost predicate CalmRun(s: State, es: seq<Event>)
    decreases |es|
  {
    es == [] || (Calm(s, es[0]) && CalmRun(Next(s, es[0]), es[1..]))
  }

  lemma {:induction false} RemovesEndedStep(s: State, e: Event)
    requires AllTracked(s) && RemovesEnded(s) && Calm(s, e)
    ensures RemovesEnded(Next(s, e))
  {
  }

  lemma {:induction false} TrackedStep(s: State, e: Event)
    requires AllTracked(s) && RemovesEnded(s) && Calm(s, e)
    ensures AllTracked(Next(s, e))
  {
    LostExactlyWhen(s, e);
  }

  /** A running worker can no longer be found after a step exactly when the step removes the
      entry of a job whose worker runs, or drops a stop whose worker runs. */
  predicate Loses(s: State, e: Event) {
    match e
    case Remove(i) =>
      s.stopping.None? && i < |s.watchers| && s.watchers[i].pc.Removing?
      && s.watchers[i].job in s.jobs && IsRunning(s, s.jobs[s.watchers[i].job])
    case StopDrop => s.stopping.Some? && IsRunning(s, s.stopping.value)
    case _ => false
  }

  lemma {:induction false} LostExactlyWhen(s: State, e: Event)
    requires AllTracked(s)
    ensures AllTracked(Next(s, e)) <==> !Loses(s, e)
  {
    match e
    case Schedule(job, moves) => if s.stopping.None? { ScheduleTracks(s, job, moves); }
    case ScheduleDrop(job, moves) => if s.stopping.None? { DroppedScheduleTracks(s, job, moves); }
    case Finish(w) => StateTracks(s, w, Ended);
    case Spawn(_) =>
    case StopAbort => if s.stopping.Some? { AbortTracks(s, s.stopping.value); }
    case StopDrop => if s.stopping.Some? { DropTracks(s, s.stopping.value); }
    case Poll(_) =>
    case Remove(i) => if s.stopping.None? { RemovalTracks(s, i); }
    case StopTake(job) => if s.stopping.None? { StopTracks(s, job); }
    case Cleanup => CleanupTracks(s);
  }

  lemma {:induction false} ScheduleTracks(s: State, job: JobId, moves: bool)
    requires AllTracked(s) && s.stopping.None?
    ensures AllTracked(ScheduleStep(s, job, moves).0)
  {
  }

  lemma {:induction false} DroppedScheduleTracks(s: State, job: JobId, moves: bool)
    requires AllTracked(s)
    ensures AllTracked(ScheduleDropStep(s, job, moves))
  {
    var v := ScheduleDropStep(s, job, moves);
    assert forall w :: 0 <= w < |s.workers| ==> v.workers[w] == s.workers[w];
  }

  lemma {:induction false} StateTracks(s: State, w: WorkerId, state: WorkerState)
    requires AllTracked(s) && !state.Running?
    ensures AllTracked(WithState(s, w, state))
  {
  }

  lemma {:induction false} AbortTracks(s: State, w: WorkerId)
    requires AllTracked(s) && s.stopping == Some(w)
    ensures AllTracked(StopAbortStep(s))
  {
    StateTracks(s, w, Aborting);
  }

  lemma {:induction false} DropTracks(s: State, w: WorkerId)
    requires AllTracked(s) && s.stopping == Some(w)
    ensures AllTracked(StopDropStep(s)) <==> !IsRunning(s, w)
  {
    if IsRunning(s, w) { assert !Tracked(StopDropStep(s), w); }
  }

  lemma {:induction false} RemovalTracks(s: State, i: nat)
    requires AllTracked(s) && s.stopping.None?
    ensures AllTracked(RemoveStep(s, i)) <==> !Loses(s, Remove(i))
  {
    if Loses(s, Remove(i)) { assert !Tracked(RemoveStep(s, i), s.jobs[s.watchers[i].job]); }
  }

  lemma {:induction false} StopTracks(s: State, job: JobId)
    requires AllTracked(s) && s.stopping.None?
    ensures AllTracked(StopTakeStep(s, job))
  {
  }

  lemma {:induction false} CleanupTracks(s: State)
    requires AllTracked(s)
    ensures AllTracked(CleanupStep(s))
  {
  }

  lemma {:induction false} TrackedRun(s: State, es: seq<Event>)
    requires AllTracked(s) && RemovesEnded(s) && CalmRun(s, es)
    ensures AllTracked(Run(s, es))
    decreases |es|
  {
    if es != [] {
      TrackedStep(s, es[0]);
      RemovesEndedStep(s, es[0]);
      TrackedRun(Next(s, es[0]), es[1..]);
    }
  }

  /** A worker that does not run never runs again: nothing signals it any more. */
  lemma {:induction false} NeverRunsAgain(s: State, es: seq<Event>, w: WorkerId)
    requires w < |s.workers| && !IsRunning(s, w)
    ensures w < |Run(s, es).workers| && !IsRunning(Run(s, es), w)
    decreases |es|
  {
    if es != [] { NeverRunsAgain(Next(s, es[0]), es[1..], w); }
  }

  /** A scheduling call dropped before its start signal leaves a worker outside the map, but one
      that runs at no later moment of any run: the jobs and the running workers stay as they were. */
  lemma {:induction false} DroppedScheduleNeverRuns(s: State, job: JobId, moves: bool, es: seq<Event>)
    requires s.stopping.None?
    ensures var v := Next(s, ScheduleDrop(job, moves));
            && v.jobs == s.jobs && v.watchers == s.watchers && RunningWorkers(v) == RunningWorkers(s)
            && (v != s <==> job !in s.jobs && |s.jobs| < s.max && moves)
            && (v != s ==> |v.workers| == |s.workers| + 1 && !IsRunning(Run(v, es), |s.workers|))
  {
    var v := Next(s, ScheduleDrop(job, moves));
    if v != s { NeverRunsAgain(v, es, |s.workers|); }
  }

  function RunningWorkers(s: State): set<WorkerId> {
    set w | 0 <= w < |s.workers| && s.workers[w].state.Running?
  }

  lemma {:induction false} FitInMap(ws: set<WorkerId>, jobs: map<JobId, WorkerId>, workers: seq<Worker>)
    requires forall w :: w in ws ==> w < |workers| && workers[w].job in jobs && jobs[workers[w].job] == w
    ensures |ws| <= |jobs|
    decreases ws
  {
    if ws != {} {
      var w :| w in ws;
      var job := workers[w].job;
      RemovalShrinks(jobs, job);
      FitInMap(ws - {w}, jobs - {job}, workers);
    }
  }

  lemma {:induction false} TrackedAreFew(s: State)
    requires AllTracked(s) && Taken(s) <= s.max
    ensures |RunningWorkers(s)| <= s.max
  {
    var held := if s.stopping.Some? then {s.stopping.value} else {};
    var ws := RunningWorkers(s);
    FitInMap(ws - held, s.jobs, s.workers);
    assert |ws| <= |ws - held| + |held| by {
      assert ws <= (ws - held) + held;
      SubsetIsSmaller(ws, (ws - held) + held);
    }
  }

  lemma {:induction false} SubsetIsSmaller(a: set<WorkerId>, b: set<WorkerId>)
    requires a <= b
    ensures |a| <= |b|
  {
    assert b == a + (b - a);
  }

  /** In calm runs every running worker can be found to be stopped, and there are never more
      running workers than may run in parallel. */
  lemma {:induction false} RunningWorkersAreBounded(max: nat, es: seq<Event>)
    requires CalmRun(Start(max), es)
    ensures AllTracked(Run(Start(max), es)) && |RunningWorkers(Run(Start(max), es))| <= max
  {
    TrackedRun(Start(max), es);
    TakenRun(Start(max), es);
    TrackedAreFew(Run(Start(max), es));
  }

  /** Not scheduling an id again while any of its cleanup tasks lives, and dropping no stop, is
      enough. */
  ghost predicate Careful(s: State, es: seq<Event>)
    decreases |es|
  {
    es == [] || (CarefulStep(s, es[0]) && Careful(Next(s, es[0]), es[1..]))
  }

  ghost predicate CarefulStep(s: State, e: Event) {
    && !e.StopDrop?
    && (e.Schedule? ==> forall i :: 0 <= i < |s.watchers| && s.watchers[i].job == e.job ==> s.watchers[i].pc.Gone?)
  }

  lemma {:induction false} CarefulIsCalm(s: State, es: seq<Event>)
    requires Careful(s, es)
    ensures CalmRun(s, es)
    decreases |es|
  {
    if es != [] { CarefulIsCalm(Next(s, es[0]), es[1..]); }
  }

  /** Scheduled again inside the gap, the new worker is removed by the old cleanup task: nobody
      can stop it any more, and its place goes to another job. */
  lemma {:induction false} RescheduleInTheGap(job: JobId, other: JobId)
    requires job != other
    ensures exists es ::
              var s := Run(Start(1), es); |s.jobs| == 1 && RunningWorkers(s) == {1, 2} && !Tracked(s, 1)
  {
    var es1, es2 := [Schedule(job, true), Spawn(0), Finish(0), Poll(0)],
                    [Cleanup, Schedule(job, true), Remove(0), Schedule(other, true)];
    RunConcat(Start(1), es1, es2);
    RunFour(Start(1), Schedule(job, true), Spawn(0), Finish(0), Poll(0));
    GapFirst(job);
    RunFour(Run(Start(1), es1), Cleanup, Schedule(job, true), Remove(0), Schedule(other, true));
    GapRest(job, other);
    GapEnd(Run(Start(1), es1 + es2), job, other);
  }

  lemma {:induction false} GapEnd(s: State, job: JobId, other: JobId)
    requires job != other && s.jobs == map[other := 2] && s.stopping.None?
    requires s.workers == [Worker(job, Ended), Worker(job, Running), Worker(other, Running)]
    ensures |s.jobs| == 1 && RunningWorkers(s) == {1, 2} && !Tracked(s, 1)
  {
  }

  lemma {:induction false} GapFirst(job: JobId)
    ensures Next(Next(Next(Next(Start(1), Schedule(job, true)), Spawn(0)), Finish(0)), Poll(0))
         == State(1, map[job := 0], [Worker(job, Ended)], [Watcher(job, Removing)], None)
  {
    var a := Next(Start(1), Schedule(job, true));
    assert a == State(1, map[job := 0], [Worker(job, Running)], [Watcher(job, Unspawned)], None);
    var b := Next(Next(a, Spawn(0)), Finish(0));
    assert b == State(1, map[job := 0], [Worker(job, Ended)], [Watcher(job, Polling)], None);
  }

  lemma {:induction false} GapRest(job: JobId, other: JobId)
    requires job != other
    ensures var s := State(1, map[job := 0], [Worker(job, Ended)], [Watcher(job, Removing)], None);
            var v := Next(Next(Next(Next(s, Cleanup), Schedule(job, true)), Remove(0)), Schedule(other, true));
            && v.jobs == map[other := 2] && v.stopping.None?
            && v.workers == [Worker(job, Ended), Worker(job, Running), Worker(other, Running)]
  {
    var s := State(1, map[job := 0], [Worker(job, Ended)], [Watcher(job, Removing)], None);
    var a := Next(s, Cleanup);
    assert a.jobs == map[];
    var b := Next(a, Schedule(job, true));
    assert b.jobs == map[job := 1];
    var c := Next(b, Remove(0));
    assert c.jobs == map[];
  }

  lemma {:induction false} RunConcat(s: State, a: seq<Event>, b: seq<Event>)
    ensures Run(s, a + b) == Run(Run(s, a), b)
    decreases |a|
  {
    if a == [] {
      assert a + b == b;
    } else {
      assert (a + b)[0] == a[0] && (a + b)[1..] == a[1..] + b;
      RunConcat(Next(s, a[0]), a[1..], b);
    }
  }

  lemma {:induction false} RunTwo(s: State, a: Event, b: Event)
    ensures Run(s, [a, b]) == Next(Next(s, a), b)
  {
    assert [a, b][1..] == [b] && [b][1..] == [];
    assert Run(Next(s, a), [b]) == Next(Next(s, a), b);
  }

  lemma {:induction false} RunFour(s: State, a: Event, b: Event, c: Event, d: Event)
    ensures Run(s, [a, b, c, d]) == Next(Next(Next(Next(s, a), b), c), d)
  {
    RunConcat(s, [a, b], [c, d]);
    assert [a, b] + [c, d] == [a, b, c, d];
    RunTwo(s, a, b);
    RunTwo(Run(s, [a, b]), c, d);
  }

  /** A stop that is dropped while it waits leaves its worker running outside the map. */
  lemma {:induction false} DroppedStopLoses(job: JobId, other: JobId)
    ensures exists es ::
              var s := Run(Start(1), es); |s.jobs| == 1 && RunningWorkers(s) == {0, 1} && !Tracked(s, 0)
  {
    var es := [Schedule(job, true), StopTake(job), StopDrop, Schedule(other, true)];
    RunFour(Start(1), Schedule(job, true), StopTake(job), StopDrop, Schedule(other, true));
    DroppedFirst(job);
    DroppedEnd(Run(Start(1), es), job, other);
  }

  lemma {:induction false} DroppedFirst(job: JobId)
    ensures var s := Next(Next(Next(Start(1), Schedule(job, true)), StopTake(job)), StopDrop);
            s.max == 1 && s.jobs == map[] && s.workers == [Worker(job, Running)] && s.stopping.None?
  {
    var s := Next(Start(1), Schedule(job, true));
    assert s.jobs == map[job := 0];
  }

  lemma {:induction false} DroppedEnd(s: State, job: JobId, other: JobId)
    requires s.jobs == map[other := 1] && s.stopping.None?
    requires s.workers == [Worker(job, Running), Worker(other, Running)]
    ensures |s.jobs| == 1 && RunningWorkers(s) == {0, 1} && !Tracked(s, 0)
  {
  }
}
