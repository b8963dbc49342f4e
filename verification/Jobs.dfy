// The job registry: one worker per application, stopped before another is started.
module Jobs {
  import opened Wrappers
  import opened Fsm

  type AppId = string

  datatype JobId = JobId(jobType: JobType, app: AppId)

  datatype Worker = Worker(job: JobId, stopped: bool)

  // Workers are numbered in the order they were started; `entries` names the registered one per application.
  datatype Registry = Registry(entries: map<AppId, nat>, workers: seq<Worker>)

  ghost predicate Consistent(r: Registry) {
    forall app :: app in r.entries ==> r.entries[app] < |r.workers| && r.workers[r.entries[app]].job.app == app
  }

  function Current(r: Registry, app: AppId): Option<JobId>
    requires Consistent(r)
  {
    if app in r.entries then Some(r.workers[r.entries[app]].job) else None
  }

  function Execute(r: Registry, job: JobId): Registry {
    Registry(r.entries[job.app := |r.workers|], r.workers + [Worker(job, false)])
  }

  // JobWorker.Stop: the first call cancels, then removes the registered worker if its job id is the same.
  function StopWorker(r: Registry, w: nat): Registry
    requires Consistent(r) && w < |r.workers|
  {
    var worker := r.workers[w];
    if worker.stopped then r
    else Registry(if Current(r, worker.job.app) == Some(worker.job) then r.entries - {worker.job.app} else r.entries,
                  r.workers[w := worker.(stopped := true)])
  }

  function Stop(r: Registry, app: AppId): Registry
    requires Consistent(r)
  {
    if app in r.entries then StopWorker(r.(entries := r.entries - {app}), r.entries[app]) else r
  }

  class JobRegistry {
    var entries: map<AppId, nat>
    var workers: seq<Worker>

    ghost function Value(): Registry
      reads this
    {
      Registry(entries, workers)
    }

    ghost predicate Valid()
      reads this
    {
      Consistent(Value())
    }

    constructor ()
      ensures Valid() && Value() == Registry(map[], [])
    {
      entries, workers := map[], [];
    }

    method ExecuteJob(job: JobId)
      requires Valid()
      modifies this
      ensures Valid() && Value() == Execute(old(Value()), job)
    {
      workers := workers + [Worker(job, false)];
      entries := entries[job.app := |workers| - 1];
    }

    method GetCurrent(app: AppId) returns (current: Option<JobId>)
      requires Valid()
      ensures current == Current(Value(), app)
    {
      if app !in entries {
        return None;
      }
      current := Some(workers[entries[app]].job);
    }

    method StopCurrent(app: AppId)
      requires Valid()
      modifies this
      ensures Valid() && Value() == Stop(old(Value()), app)
    {
      if app !in entries {
        return;
      }
      var w := entries[app];
      entries := entries - {app};
      StopJobWorker(w);
    }

    method StopJobWorker(w: nat)
      requires Valid() && w < |workers|
      modifies this
      ensures Valid() && Value() == StopWorker(old(Value()), w)
    {
      if !workers[w].stopped {
        var job := workers[w].job;
        workers := workers[w := workers[w].(stopped := true)];
        if job.app in entries && workers[entries[job.app]].job == job {
          entries := entries - {job.app};
        }
      }
    }
  }

  // ---- reconciliations of many applications interleaved with finishing workers ----

  // Where the single reconciliation of an application stands after its decision.
  datatype Progress = Requested(job: JobId) | Cleared(job: JobId)

  datatype System = System(registry: Registry, active: map<AppId, Progress>)

  datatype Action =
    | Request(job: JobId)
    | StopDifferent(app: AppId)
    | Start(app: AppId)
    | Finish(worker: nat)
    | Delete(app: AppId)
    | Crash

  ghost predicate Enabled(s: System, a: Action) {
    && Consistent(s.registry)
    && match a
       case Request(job) => job.app !in s.active
       case StopDifferent(app) => app in s.active && s.active[app].Requested?
       case Start(app) => app in s.active && s.active[app].Cleared?
       case Finish(w) => w < |s.registry.workers| && !s.registry.workers[w].stopped
       case Delete(app) => app !in s.active
       case Crash => true
  }

  ghost function Apply(s: System, a: Action): System
    requires Enabled(s, a)
  {
    match a
    case Request(job) => s.(active := s.active[job.app := Requested(job)])
    case StopDifferent(app) =>
      var job, current := s.active[app].job, Current(s.registry, app);
      System(if current.Some? && current.value != job then Stop(s.registry, app) else s.registry,
             s.active[app := Cleared(job)])
    case Start(app) =>
      var job := s.active[app].job;
      System(if Current(s.registry, app) != Some(job) then Execute(s.registry, job) else s.registry, s.active - {app})
    case Finish(w) => s.(registry := StopWorker(s.registry, w))
    case Delete(app) => s.(registry := Stop(s.registry, app))
    case Crash => System(Registry(map[], []), map[])
  }

  ghost predicate Run(s: System, actions: seq<Action>, t: System)
    decreases |actions|
  {
    if actions == [] then t == s else Enabled(s, actions[0]) && Run(Apply(s, actions[0]), actions[1..], t)
  }

  ghost predicate Live(r: Registry, w: int) {
    0 <= w < |r.workers| && !r.workers[w].stopped
  }

  ghost predicate RegisteredIffLive(r: Registry) {
    && Consistent(r)
    && (forall app :: app in r.entries ==> !r.workers[r.entries[app]].stopped)
    && (forall w :: Live(r, w) ==>
          r.workers[w].job.app in r.entries && r.entries[r.workers[w].job.app] == w)
  }

  ghost predicate Inv(s: System) {
    && RegisteredIffLive(s.registry)
    && (forall app :: app in s.active ==> s.active[app].job.app == app)
    && (forall app :: app in s.active && s.active[app].Cleared? && app in s.registry.entries ==>
          s.registry.workers[s.registry.entries[app]].job == s.active[app].job)
  }

  // Removing the entry of a live worker and stopping that worker.
  lemma StopKeeps(r: Registry, app: AppId)
    requires RegisteredIffLive(r)
    ensures RegisteredIffLive(Stop(r, app)) && Stop(r, app).entries == r.entries - {app}
    ensures |Stop(r, app).workers| == |r.workers|
    ensures forall w :: 0 <= w < |r.workers| ==> Stop(r, app).workers[w].job == r.workers[w].job
  {}

  lemma FinishKeeps(r: Registry, w: nat)
    requires RegisteredIffLive(r) && Live(r, w)
    ensures StopWorker(r, w) == Stop(r, r.workers[w].job.app)
  {
    assert r.entries[r.workers[w].job.app] == w;
  }

  lemma ExecuteKeeps(r: Registry, job: JobId)
    requires RegisteredIffLive(r) && job.app !in r.entries
    ensures RegisteredIffLive(Execute(r, job))
  {}

  lemma StepKeepsInv(s: System, a: Action)
    requires Inv(s) && Enabled(s, a)
    ensures Inv(Apply(s, a))
  {
    match a
    case Request(_) =>
    case StopDifferent(app) => StopKeeps(s.registry, app);
    case Start(app) =>
      if Current(s.registry, app) != Some(s.active[app].job) { ExecuteKeeps(s.registry, s.active[app].job); }
    case Finish(w) =>
      FinishKeeps(s.registry, w);
      StopKeeps(s.registry, s.registry.workers[w].job.app);
    case Delete(app) => StopKeeps(s.registry, app);
    case Crash =>
  }

  lemma {:induction false} RunKeepsInv(s: System, actions: seq<Action>, t: System)
    requires Inv(s) && Run(s, actions, t)
    ensures Inv(t)
    decreases |actions|
  {
    if actions != [] {
      StepKeepsInv(s, actions[0]);
      RunKeepsInv(Apply(s, actions[0]), actions[1..], t);
    }
  }

  // At most one live worker per application, over every run: a worker that is not stopped is the registered
  // one, every registered worker is live, and a start never overwrites a registered worker.
  lemma OneLiveWorker(actions: seq<Action>, t: System)
    requires Run(System(Registry(map[], []), map[]), actions, t)
    ensures RegisteredIffLive(t.registry)
    ensures forall v, w ::
      (Live(t.registry, v) && Live(t.registry, w) && t.registry.workers[v].job.app == t.registry.workers[w].job.app)
      ==> v == w
    ensures forall app :: Enabled(t, Start(app)) && Current(t.registry, app) != Some(t.active[app].job) ==>
      app !in t.registry.entries
  {
    RunKeepsInv(System(Registry(map[], []), map[]), actions, t);
  }
}
