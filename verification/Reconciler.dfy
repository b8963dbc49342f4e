// One Reconcile call from start to end: snapshot, decision, stop of a different job, commit with retries, start.
// The methods of the other modules are put together in the order of the controller.
module Reconciler {
  import opened Wrappers
  import opened Api
  import opened Fsm
  import opened StatusObject
  import opened Jobs
  import opened Merge
  import opened Store
  import Protocol
  import FsmMethods
  import Decisions

  // The view LoadApplication and GetCurrent give of snapshot `s`.
  function ViewOf(s: Status, z: ZoneId, p: Protocol.Phase, current: Option<JobId>, spec: Spec, report: Condition,
                  now: int): View
    requires p.Loaded?
  {
    Protocol.ViewOf(s, z, p, None, spec, report, now).(
      running := if current.Some? then Some(Running(current.value.jobType, report)) else None)
  }

  // The registry after a different job was stopped, and after the wanted one was started.
  function StoppedFor(r: Registry, job: Option<JobId>): Registry
    requires Consistent(r)
  {
    if job.None? then r
    else
      var current := Current(r, job.value.app);
      if current.Some? && current != job then Stop(r, job.value.app) else r
  }

  function StartedFor(r: Registry, job: Option<JobId>): Registry
    requires Consistent(r)
  {
    if job.None? || Current(r, job.value.app) == job then r else Execute(r, job.value)
  }

  function MergeCallback(n: Status, z: ZoneId): Callback {
    (current: Status) => (Updated(current, n, z), MergeStatus(current, n, z))
  }

  function ClaimCallback(z: ZoneId): Callback {
    (current: Status) => (current.ownership.state == NoState, Claimed(current, z))
  }

  // What a call writes: nothing, or one entry that is the callback's result on the entry right before it.
  ghost predicate WritesAtMost(before: seq<Obj>, after: seq<Obj>, mine: set<nat>, callback: Callback, z: ZoneId) {
    && before <= after
    && (mine == {} || exists j :: mine == {j} && |before| <= j && IsCommit(j, after, callback, z))
  }

  datatype Conclusion = Initialized | Skipped | Crashed | Handled(derived: Option<Status>, job: Option<JobId>)

  // The decision on snapshot `s`, as a function.
  ghost function Decide(s: Status, z: ZoneId, app: AppId, v: View): Conclusion
    requires v.Valid()
  {
    if s.ownership.owner == "" then Initialized
    else if !Protocol.ShouldHandle(s, v) then Skipped
    else match Derive(s, v)
      case Panicked => Crashed
      case Derived(status, updated, job) =>
        Handled(if updated then Some(status) else None, if job.Some? then Some(JobId(job.value.Type(), app)) else None)
  }

  // When a call claims the application and when it leaves it alone: the zone has nothing to do with it.
  lemma DecideInWords(s: Status, z: ZoneId, app: AppId, v: View)
    requires v.Valid() && v.zone == z
    ensures Decide(s, z, app, v).Initialized? <==> s.ownership.owner == ""
    ensures Decide(s, z, app, v).Skipped? <==>
      && s.ownership.owner != "" && s.ownership.owner != z && s.ownership.state != NoState
      && (forall e :: e in s.zones ==> e.zoneId != z)
      && !Decisions.Placed(s, z) && !(Decisions.ActiveInstalled(v) && v.complete)
  {
    Decisions.InWords(s, v);
    var i := ZoneIndex(s.zones, z);
    if i < |s.zones| { assert s.zones[i] in s.zones; }
    if e :| e in s.zones && e.zoneId == z {
      var j :| 0 <= j < |s.zones| && s.zones[j] == e;
    }
  }

  // The callbacks of the reconciler and of job reports leave other zones alone and do not touch the zone's version.
  lemma CallbacksAreModest(n: Status, z: ZoneId, c: Condition, types: seq<ConditionType>)
    ensures Modest(MergeCallback(n, z), z) && Modest(ClaimCallback(z), z)
    ensures Modest((current: Status) => Reported(current, z, c, types), z)
  {
    forall s: Status
      ensures KeepsVersion(s, MergeStatus(s, n, z), z)
      ensures KeepsVersion(s, Claimed(s, z), z)
      ensures KeepsVersion(s, Reported(s, z, c, types).1, z)
    {
      MergeOwn(s, n, z);
      MergeKeepsVersion(s, n, z);
      assert Own(Claimed(s, z), z) == Own(s, z);
      ReportKeepsVersion(s, z, c, types);
    }
  }

  lemma MergeKeepsVersion(s: Status, n: Status, z: ZoneId)
    ensures KeepsVersion(s, MergeStatus(s, n, z), z)
  {
    MergeOwn(s, n, z);
  }

  lemma ReportKeepsVersion(s: Status, z: ZoneId, c: Condition, types: seq<ConditionType>)
    ensures KeepsVersion(s, Reported(s, z, c, types).1, z)
  {
    var own := Own(s, z).(conditions := Upsert(Own(s, z).conditions, c));
    PutOwn(s, z, own);
    PutSameOthers(s, z, own);
    DropAllElements(AddOrUpdate(s, z, c), z, types);
  }

  // `load` is the state of the cluster for a snapshot, `report` the current job's condition, `at` the position of
  // the snapshot read. A failed commit does not keep the job from starting.
  method Reconcile(server: ApiServer, jobs: JobRegistry, app: AppId, z: ZoneId, load: Status -> Protocol.Phase,
                   spec: Spec,
                   report: Condition, now: int, cancelled: nat -> bool)
    returns (conclusion: Conclusion, answer: Option<Answer>, ghost at: nat, ghost mine: set<nat>)
    requires server.Valid() && jobs.Valid()
    requires forall s :: load(s).Loaded?
    requires var current := Current(jobs.Value(), app);
      current.Some? ==> report.ctype == ReportType(current.value.jobType) && report.zone == z
    modifies server, jobs
    ensures server.Valid() && jobs.Valid() && at < |old(server.log)|
    ensures answer.Some? <==> conclusion.Initialized? || (conclusion.Handled? && conclusion.derived.Some?)
    ensures answer == Some(Stored) <==> mine != {}
    ensures answer.None? ==> server.log == old(server.log)
    ensures var s := old(server.log)[at].status;
      var v := ViewOf(s, z, load(s), Current(old(jobs.Value()), app), spec, report, now);
      && conclusion == Decide(s, z, app, v)
      && (conclusion.Skipped? || conclusion.Crashed? ==> jobs.Value() == old(jobs.Value()))
      && (conclusion.Initialized? ==>
            jobs.Value() == old(jobs.Value()) && WritesAtMost(old(server.log), server.log, mine, ClaimCallback(z), z))
      && (conclusion.Handled? ==>
            && jobs.Value() == StartedFor(StoppedFor(old(jobs.Value()), conclusion.job), conclusion.job)
            && (conclusion.derived.Some? ==>
                  WritesAtMost(old(server.log), server.log, mine, MergeCallback(conclusion.derived.value, z), z)))
  {
    mine, answer := {}, None;
    var position, obj := server.Get();
    at := position;
    if obj.status.ownership.owner == "" {
      var claimed, written, _ := UpdateStatus(server, z, ClaimCallback(z), cancelled);
      return Initialized, Some(claimed), at, written;
    }
    var current := jobs.GetCurrent(app);
    var v := ViewOf(obj.status, z, load(obj.status), current, spec, report, now);
    if !Protocol.ShouldHandle(obj.status, v) {
      return Skipped, None, at, mine;
    }
    var status := new AnyApplicationStatus(obj.status);
    var panicked, updated, decided := FsmMethods.DeriveNewStatus(status, v);
    if panicked {
      return Crashed, None, at, mine;
    }
    conclusion := Handled(if updated then Some(status.Value()) else None,
                          if decided.Some? then Some(JobId(decided.value.Type(), app)) else None);
    answer, mine := CarryOut(server, jobs, z, conclusion.derived, conclusion.job, cancelled);
  }

  // Stop a different job, commit, start.
  method CarryOut(server: ApiServer, jobs: JobRegistry, z: ZoneId, derived: Option<Status>, job: Option<JobId>,
                  cancelled: nat -> bool)
    returns (answer: Option<Answer>, ghost mine: set<nat>)
    requires server.Valid() && jobs.Valid()
    modifies server, jobs
    ensures server.Valid() && jobs.Valid()
    ensures jobs.Value() == StartedFor(StoppedFor(old(jobs.Value()), job), job)
    ensures answer.Some? <==> derived.Some?
    ensures answer == Some(Stored) <==> mine != {}
    ensures if derived.Some? then WritesAtMost(old(server.log), server.log, mine, MergeCallback(derived.value, z), z)
            else server.log == old(server.log)
  {
    mine, answer := {}, None;
    if job.Some? {
      var current := jobs.GetCurrent(job.value.app);
      if current.Some? && current != job {
        jobs.StopCurrent(job.value.app);
      }
    }
    if derived.Some? {
      var committed, written, _ := UpdateStatus(server, z, MergeCallback(derived.value, z), cancelled);
      answer, mine := Some(committed), written;
    }
    if job.Some? {
      var running := jobs.GetCurrent(job.value.app);
      if running != job {
        jobs.ExecuteJob(job.value);
      }
    }
  }

  // Afterwards the wanted job is the registered one, still with at most one live worker per application; the worker
  // of the same job keeps running, one of another type is stopped, and other applications are not touched.
  lemma WantedJobRuns(r: Registry, job: JobId)
    requires RegisteredIffLive(r)
    ensures var r' := StartedFor(StoppedFor(r, Some(job)), Some(job));
      && RegisteredIffLive(r') && Current(r', job.app) == Some(job)
      && (Current(r, job.app) == Some(job) ==> r' == r)
      && (Current(r, job.app) != Some(job) ==> r'.entries[job.app] == |r.workers| == |r'.workers| - 1)
      && (forall app :: app != job.app ==> (app in r'.entries <==> app in r.entries))
      && (forall app :: app != job.app && app in r.entries ==> r'.entries[app] == r.entries[app])
  {
    var current := Current(r, job.app);
    if current.Some? && current != Some(job) { StopKeeps(r, job.app); }
    if current != Some(job) { ExecuteKeeps(StoppedFor(r, Some(job)), job); }
  }
}
