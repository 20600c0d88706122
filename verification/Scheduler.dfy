/** The scheduler's job map (src/agent/scheduler.rs): scheduling, stopping and the two ways of
    cleaning up, each lock section one step. */
module Schedulers {
  import opened Wrappers

  type JobId = nat
  type WorkerId = nat

  /** A worker task waits for its start signal, and ends without running when the sender goes
      first. An aborted worker has been asked to end and ends some time later. */
  datatype WorkerState = Unstarted | Running | Aborting | Ended

  datatype Worker = Worker(job: JobId, state: WorkerState)

  datatype WatcherPc = Unspawned | Polling | Removing | Gone

  /** The cleanup task of a job; the call that schedules the job spawns it after it has
      released the lock. */
  datatype Watcher = Watcher(job: JobId, pc: WatcherPc)

  /** `stopping` is the worker taken out by a stop that holds the write lock. */
  datatype State = State(
    max: nat, jobs: map<JobId, WorkerId>, workers: seq<Worker>, watchers: seq<Watcher>, stopping: Option<WorkerId>)

  datatype Event =
    | Schedule(job: JobId, moves: bool)   // whether the job's own state lets it go in progress
    | ScheduleDrop(job: JobId, moves: bool)   // the scheduling call is dropped before the signal is sent
    | Finish(w: WorkerId)
    | Spawn(i: nat)
    | Poll(i: nat)
    | Remove(i: nat)
    | StopTake(job: JobId)
    | StopAbort
    | StopDrop                            // the stopping call is dropped while it waits
    | Cleanup

  datatype Error = MaxJobsExceeded | ContextError

  function Start(max: nat): State {
    State(max, map[], [], [], None)
  }

  predicate Finished(s: State, w: WorkerId) {
    w < |s.workers| && s.workers[w].state.Ended?
  }

  predicate IsRunning(s: State, w: WorkerId) {
    w < |s.workers| && s.workers[w].state.Running?
  }

  function WithState(s: State, w: WorkerId, state: WorkerState): State {
    if w < |s.workers| then s.(workers := s.workers[w := s.workers[w].(state := state)]) else s
  }

  function ScheduleStep(s: State, job: JobId, moves: bool): (State, Result<(), Error>) {
    if job in s.jobs then (s, Ok(()))
    else if |s.jobs| >= s.max then (s, Err(MaxJobsExceeded))
    else if !moves then (s, Err(ContextError))
    else
      (s.(jobs := s.jobs[job := |s.workers|], workers := s.workers + [Worker(job, Running)],
          watchers := s.watchers + [Watcher(job, Unspawned)]), Ok(()))
  }

  /** The call is dropped between the spawn of its worker and the start signal: there is no
      entry, and the worker is left without a sender. */
  function ScheduleDropStep(s: State, job: JobId, moves: bool): State {
    if ScheduleStep(s, job, moves).0 == s then s else s.(workers := s.workers + [Worker(job, Unstarted)])
  }

  function SpawnStep(s: State, i: nat): State {
    if i < |s.watchers| && s.watchers[i].pc.Unspawned?
    then s.(watchers := s.watchers[i := s.watchers[i].(pc := Polling)])
    else s
  }

  function PollStep(s: State, i: nat): State {
    if i < |s.watchers| && s.watchers[i].pc.Polling?
       && (s.watchers[i].job !in s.jobs || Finished(s, s.jobs[s.watchers[i].job]))
    then s.(watchers := s.watchers[i := s.watchers[i].(pc := Removing)])
    else s
  }

  function RemoveStep(s: State, i: nat): State {
    if i < |s.watchers| && s.watchers[i].pc.Removing?
    then s.(jobs := s.jobs - {s.watchers[i].job}, watchers := s.watchers[i := s.watchers[i].(pc := Gone)])
    else s
  }

  function StopTakeStep(s: State, job: JobId): State {
    if job in s.jobs then s.(jobs := s.jobs - {job}, stopping := Some(s.jobs[job])) else s
  }

  /** After the grace period a worker that has not ended is asked to. */
  function StopAbortStep(s: State): State {
    if s.stopping.None? then s
    else
      var t := if Finished(s, s.stopping.value) then s else WithState(s, s.stopping.value, Aborting);
      t.(stopping := None)
  }

  function StopDropStep(s: State): State {
    s.(stopping := None)
  }

  /** A whole stop: the entry goes, the worker ends by itself or not, and then it is asked to
      unless the call was dropped. */
  function StopCall(s: State, job: JobId, finishes: bool, dropped: bool): State {
    if job !in s.jobs then s
    else
      var t := StopTakeStep(s, job);
      var v := if finishes then WithState(t, s.jobs[job], Ended) else t;
      if dropped then StopDropStep(v) else StopAbortStep(v)
  }

  function CleanupStep(s: State): State {
    s.(jobs := map job | job in s.jobs && !Finished(s, s.jobs[job]) :: s.jobs[job])
  }

  /** A caller that needs the lock while a stop holds it waits. */
  function Next(s: State, e: Event): State {
    match e
    case Finish(w) => WithState(s, w, Ended)
    case Spawn(i) => SpawnStep(s, i)
    case StopAbort => StopAbortStep(s)
    case StopDrop => StopDropStep(s)
    case _ =>
      if s.stopping.Some? then s
      else
        match e
        case Schedule(job, moves) => ScheduleStep(s, job, moves).0
        case ScheduleDrop(job, moves) => ScheduleDropStep(s, job, moves)
        case Poll(i) => PollStep(s, i)
        case Remove(i) => RemoveStep(s, i)
        case StopTake(job) => StopTakeStep(s, job)
        case Cleanup => CleanupStep(s)
  }

  function Run(s: State, es: seq<Event>): State
    decreases |es|
  {
    if es == [] then s else Run(Next(s, es[0]), es[1..])
  }

  // ---- the scheduler ----

  class Scheduler {
    const maxParallelJobs: nat
    var jobs: map<JobId, WorkerId>
    var workers: seq<Worker>
    var watchers: seq<Watcher>
    var stopping: Option<WorkerId>

    function Snapshot(): State
      reads this
    {
      State(maxParallelJobs, jobs, workers, watchers, stopping)
    }

    constructor (maxParallelJobs: nat)
      ensures Snapshot() == Start(maxParallelJobs)
    {
      this.maxParallelJobs := maxParallelJobs;
      jobs, workers, watchers, stopping := map[], [], [], None;
    }

    /** `dropped` tells whether the call is dropped while it sends the start signal. */
    method ScheduleWithContext(job: JobId, moves: bool, dropped: bool) returns (r: Option<Result<(), Error>>)
      modifies this
      ensures Snapshot() == if dropped then ScheduleDropStep(old(Snapshot()), job, moves)
                            else ScheduleStep(old(Snapshot()), job, moves).0
      ensures !dropped ==> r == Some(ScheduleStep(old(Snapshot()), job, moves).1)
    {
      if job in jobs {
        return Some(Ok(()));
      }
      if |jobs| >= maxParallelJobs {
        return Some(Err(MaxJobsExceeded));
      }
      if !moves {
        return Some(Err(ContextError));
      }
      var w := |workers|;
      workers := workers + [Worker(job, Unstarted)];
      if dropped {
        return None;
      }
      workers := workers[w := Worker(job, Running)];
      jobs := jobs[job := w];
      watchers := watchers + [Watcher(job, Unspawned)];
      r := Some(Ok(()));
    }

    method SpawnWatcher(i: nat)
      requires i < |watchers| && watchers[i].pc.Unspawned?
      modifies this`watchers
      ensures Snapshot() == SpawnStep(old(Snapshot()), i)
    {
      watchers := watchers[i := watchers[i].(pc := Polling)];
    }

    /** One round of a cleanup task; the write lock is taken in a later step. */
    method PollWatcher(i: nat)
      requires i < |watchers| && watchers[i].pc.Polling?
      modifies this`watchers
      ensures Snapshot() == PollStep(old(Snapshot()), i)
    {
      var finished := true;
      if watchers[i].job in jobs {
        var w := jobs[watchers[i].job];
        finished := w < |workers| && workers[w].state.Ended?;
      }
      if finished {
        watchers := watchers[i := watchers[i].(pc := Removing)];
      }
    }

    method RemoveWatched(i: nat)
      requires i < |watchers| && watchers[i].pc.Removing?
      modifies this`jobs, this`watchers
      ensures Snapshot() == RemoveStep(old(Snapshot()), i)
    {
      jobs := jobs - {watchers[i].job};
      watchers := watchers[i := watchers[i].(pc := Gone)];
    }

    /** `finishes` tells whether the worker ends by itself in the grace period, `dropped`
        whether the call is dropped in it. */
    method Stop(job: JobId, finishes: bool, dropped: bool)
      requires stopping.None?
      modifies this
      ensures Snapshot() == StopCall(old(Snapshot()), job, finishes, dropped)
    {
      if job in jobs {
        var w := jobs[job];
        jobs := jobs - {job};
        if w < |workers| {
          if finishes {
            workers := workers[w := workers[w].(state := Ended)];
          }
          if !dropped && !workers[w].state.Ended? {
            workers := workers[w := workers[w].(state := Aborting)];
          }
        }
      }
    }

    method CleanupFinished()
      modifies this`jobs
      ensures Snapshot() == CleanupStep(old(Snapshot()))
    {
      var finished: seq<JobId> := [];
      var todo := jobs.Keys;
      while todo != {}
        invariant todo <= jobs.Keys && jobs == old(jobs)
        invariant forall job :: job in finished <==> job in jobs.Keys - todo && Finished(Snapshot(), jobs[job])
        decreases todo
      {
        var job :| job in todo;
        if jobs[job] < |workers| && workers[jobs[job]].state.Ended? {
          finished := finished + [job];
        }
        todo := todo - {job};
      }
      for i := 0 to |finished|
        invariant forall job :: job in jobs <==> job in old(jobs) && job !in finished[..i]
        invariant forall job :: job in jobs ==> jobs[job] == old(jobs)[job]
      {
        jobs := jobs - {finished[i]};
        assert finished[..i + 1] == finished[..i] + [finished[i]];
      }
      assert finished[..|finished|] == finished;
    }
  }
}
