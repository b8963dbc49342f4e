// The reconciliation step in place: DeriveNewStatus and the two state machines on the mutable status, each
// proved to do exactly what the functions of `Fsm` say.
module FsmMethods {
  import opened Wrappers
  import opened Api
  import opened StatusObject
  import opened Fsm

  method LocalNextState(status: AnyApplicationStatus, v: View) returns (r: NextState)
    requires v.Valid()
    modifies status`zones
    ensures status.Value() == LocalTouched(old(status.Value()), v)
    ensures r == LocalNext(old(status.Value()), v)
  {
    ghost var s := status.Value();
    PutOwn(s, v.zone, Own(s, v.zone));
    var placed := PlacementsContain(status.Value(), v.zone);
    var undeployOldVersion := v.IsPresent() && v.newVersion.Some?;
    if (!placed && v.IsPresent()) || v.NonActiveVersionsPresent() || undeployOldVersion {
      r := NextUndeploy(status, v);
    } else if placed {
      if !v.IsDeployed() {
        r := NextDeploy(status, v);
      } else {
        r := NextOperation(status, v);
      }
    } else {
      r := NOTHING;
      if !v.IsDeployed() && !v.IsPresent() {
        var i, found := status.GetStatusFor(v.zone);
        if found {
          r := NOTHING.(toRemove := status.zones[i].conditions);
        }
      }
    }
  }

  method NextDeploy(status: AnyApplicationStatus, v: View) returns (r: NextState)
    requires v.Valid()
    modifies status`zones
    ensures status.Value() == Put(old(status.Value()), v.zone, Own(old(status.Value()), v.zone))
    ensures r == HandleDeploy(old(status.Value()), v)
  {
    ghost var s := status.Value();
    PutOwn(s, v.zone, Own(s, v.zone));
    var i := status.GetOrCreateStatusFor(v.zone);
    var conditions := status.zones[i].conditions;
    var toRemove := Listed([], conditions, LocalCondition, v.zone);
    toRemove := Listed(toRemove, conditions, UndeploymentCondition, v.zone);
    if !v.IsDeployed() || v.newVersion.Some? {
      if !v.IsRunning(DeployType) {
        var k := status.FindCondition(i, DeploymentCondition);
        var attemptsExhausted := false;
        if k < |conditions| {
          attemptsExhausted := conditions[k].code == Failure && conditions[k].retryAttempt >= v.spec.maxRetries;
        }
        if !attemptsExhausted {
          var version := v.Target();
          if v.newVersion.Some? {
            version := v.newVersion.value;
          }
          return NextState(None, Some(FirstReport(DeployType, v.zone, v.now)), toRemove, v.newVersion,
                           Some(DeployJob(version)));
        }
      }
    } else {
      r := NextOperation(status, v);
      return;
    }
    r := NOTHING.(toRemove := toRemove);
  }

  method NextUndeploy(status: AnyApplicationStatus, v: View) returns (r: NextState)
    requires v.Valid()
    modifies status`zones
    ensures status.Value() == Put(old(status.Value()), v.zone, Own(old(status.Value()), v.zone))
    ensures r == HandleUndeploy(old(status.Value()), v)
  {
    ghost var s := status.Value();
    PutOwn(s, v.zone, Own(s, v.zone));
    var i := status.GetOrCreateStatusFor(v.zone);
    var conditions := status.zones[i].conditions;
    var toRemove := Listed([], conditions, LocalCondition, v.zone);
    toRemove := Listed(toRemove, conditions, DeploymentCondition, v.zone);
    var k := status.FindCondition(i, UndeploymentCondition);
    var attemptsExhausted := false;
    if k < |conditions| {
      attemptsExhausted := conditions[k].code == Failure && conditions[k].retryAttempt >= v.spec.maxRetries;
    }
    if !v.IsRunning(UndeployType) {
      if v.IsPresent() && !attemptsExhausted {
        var newVersion := None;
        if v.newVersion.Some? {
          newVersion := Some(v.Target());
        }
        return NextState(None, Some(FirstReport(UndeployType, v.zone, v.now)), toRemove, newVersion, Some(UndeployJob));
      }
    }
    if k < |conditions| && conditions[k].code == Done {
      toRemove := Listed(toRemove, conditions, UndeploymentCondition, v.zone);
    }
    r := NOTHING.(toRemove := toRemove);
  }

  method NextOperation(status: AnyApplicationStatus, v: View) returns (r: NextState)
    requires v.Valid()
    modifies status`zones
    ensures status.Value() == Put(old(status.Value()), v.zone, Own(old(status.Value()), v.zone))
    ensures r == HandleOperation(old(status.Value()), v)
  {
    ghost var s := status.Value();
    PutOwn(s, v.zone, Own(s, v.zone));
    var i := status.GetOrCreateStatusFor(v.zone);
    var conditions := status.zones[i].conditions;
    var toRemove := Listed([], conditions, UndeploymentCondition, v.zone);
    if v.IsDeployed() && !v.IsRunning(OperationType) {
      return NextState(None, Some(FirstReport(OperationType, v.zone, v.now)), toRemove, None,
                       Some(OperationJob(v.active.value)));
    }
    if v.IsRunning(OperationType) || |toRemove| > 0 {
      toRemove := Listed(toRemove, conditions, DeploymentCondition, v.zone);
    }
    r := NOTHING.(toRemove := toRemove);
  }

  method LocalStateMachine(status: AnyApplicationStatus, v: View) returns (updated: bool, job: Option<Job>)
    requires v.Valid()
    modifies status`zones
    ensures var l := LocalNext(old(status.Value()), v);
      && status.Value() == LocalApplied(LocalTouched(old(status.Value()), v), v.zone, l)
      && updated == LocalUpdated(l) && job == l.job
  {
    var r := LocalNextState(status, v);
    ghost var touched := status.Value();
    updated := false;
    for i := 0 to |r.toRemove|
      invariant RemoveAll(touched, v.zone, r.toRemove) == RemoveAll(status.Value(), v.zone, r.toRemove[i..])
      invariant updated <==> i > 0
    {
      status.RemoveCondition(r.toRemove[i], v.zone);
      updated := true;
    }
    if r.toAdd.Some? {
      status.InsertCondition(r.toAdd.value, v.zone);
      updated := true;
    }
    if r.newVersion.Some? {
      status.SetNewVersion(r.newVersion.value, v.zone);
      updated := true;
    }
    job := r.job;
    if job.Some? {
      updated := true;
    }
  }

  // Counts the zone entries with a failing condition.
  method IsFailureCondition(status: AnyApplicationStatus, spec: Spec) returns (failure: bool)
    ensures failure <==> TooManyFailures(status.Value(), spec)
  {
    var failedZones := 0;
    for i := 0 to |status.zones|
      invariant failedZones == |FailingBelow(status.zones, i)|
    {
      var zoneFailed := false;
      var conditions := status.zones[i].conditions;
      for k := 0 to |conditions|
        invariant zoneFailed <==> exists j :: 0 <= j < k && FailingCondition(conditions[j])
      {
        match conditions[k].ctype {
          case LocalCondition =>
            if conditions[k].code == Degraded || conditions[k].code == Missing { zoneFailed := true; }
          case DeploymentCondition =>
            if conditions[k].code == Failure { zoneFailed := true; }
          case UndeploymentCondition =>
            if conditions[k].code == Failure { zoneFailed := true; }
          case _ =>
        }
      }
      FailingStep(status.zones, i);
      if zoneFailed {
        failedZones := failedZones + 1;
      }
    }
    assert FailingZones(status.zones) == FailingBelow(status.zones, |status.zones|);
    failure := failedZones > spec.tolerance;
  }

  const OPERATING_TYPES := [LocalCondition, DeploymentCondition, UndeploymentCondition]

  // The first of local, deployment and undeployment condition present for the zone.
  method GetHighestZoneCondition(conditions: seq<Condition>, zone: ZoneId) returns (highest: Option<ConditionType>)
    ensures highest == Some(LocalCondition) <==> HasCondition(conditions, LocalCondition, zone)
    ensures highest.None? <==> forall t :: t in OPERATING_TYPES ==> !HasCondition(conditions, t, zone)
    ensures highest.Some? ==> exists i ::
      && 0 <= i < |OPERATING_TYPES| && highest.value == OPERATING_TYPES[i]
      && HasCondition(conditions, highest.value, zone)
      && forall j :: 0 <= j < i ==> !HasCondition(conditions, OPERATING_TYPES[j], zone)
  {
    var types := OPERATING_TYPES;
    assert types[0] == LocalCondition;
    for i := 0 to |types|
      invariant forall j :: 0 <= j < i ==> !HasCondition(conditions, types[j], zone)
    {
      if HasCondition(conditions, types[i], zone) {
        return Some(types[i]);
      }
    }
    highest := None;
  }

  method GetGlobalState(status: AnyApplicationStatus) returns (state: GlobalState)
    requires status.ownership.placements.Some?
    ensures state == if AllPlacementsOperate(status.Value()) then Operational else Relocation
  {
    state := Operational;
    var placements := status.ownership.placements.value;
    for i := 0 to |placements|
      invariant state == Operational || state == Relocation
      invariant state == Operational <==> forall j :: 0 <= j < i ==> ZoneOperates(status.Value(), placements[j].zone)
    {
      var k, found := status.GetStatusFor(placements[i].zone);
      if !found {
        state := Relocation;
      } else {
        var highest := GetHighestZoneCondition(status.zones[k].conditions, placements[i].zone);
        if highest == Some(DeploymentCondition) || highest == Some(UndeploymentCondition) || highest.None? {
          state := Relocation;
        }
      }
    }
  }

  method GlobalNextState(status: AnyApplicationStatus, v: View) returns (r: NextState)
    ensures r == GlobalNext(status.Value(), v)
  {
    if status.ownership.placements.None? {
      r := HandlePlacement(status.Value(), v);
      return;
    }
    var failure := IsFailureCondition(status, v.spec);
    if failure {
      r := NOTHING.(nextState := Some(Failed));
    } else {
      var state := GetGlobalState(status);
      r := NOTHING.(nextState := Some(state));
    }
  }

  method GlobalStateMachine(status: AnyApplicationStatus, v: View) returns (updated: bool, job: Option<Job>)
    modifies status
    ensures var g := GlobalNext(old(status.Value()), v);
      && status.Value() == GlobalApplied(old(status.Value()), v.zone, g)
      && updated == GlobalUpdated(old(status.Value()), g) && job == g.job
  {
    var r := GlobalNextState(status, v);
    updated := r.job.Some?;
    if r.toAdd.Some? {
      WithConditionFrame(status.Value(), v.zone, r.toAdd.value);
      status.InsertCondition(r.toAdd.value, v.zone);
      updated := true;
    }
    var nextState := if r.nextState.Some? then r.nextState.value else status.ownership.state;
    if status.ownership.state != nextState {
      status.ownership := status.ownership.(state := nextState);
      updated := true;
    }
    job := r.job;
  }

  // The jobs to schedule after a reconciliation; a second job is the "Multiple jobs" panic.
  class NextJobs {
    var toAdd: Option<Job>

    constructor (job: Option<Job>)
      ensures toAdd == job
    {
      toAdd := job;
    }

    method Add(other: Option<Job>) returns (panicked: bool)
      modifies this
      ensures panicked <==> old(toAdd).Some? && other.Some?
      ensures toAdd == if old(toAdd).None? then other else old(toAdd)
    {
      panicked := false;
      if toAdd.None? {
        toAdd := other;
      } else if other.Some? {
        panicked := true;
      }
    }
  }

  method UpdateState(status: AnyApplicationStatus, v: View) returns (panicked: bool, updated: bool, job: Option<Job>)
    requires v.Valid()
    modifies status
    ensures panicked <==> Fsm.UpdateState(old(status.Value()), v).Panicked?
    ensures !panicked ==> Fsm.UpdateState(old(status.Value()), v) == Derived(status.Value(), updated, job)
  {
    var localUpdated, localJob, l := LocalPhase(status, v);
    panicked, updated, job := ConcludePhase(status, v, localUpdated, localJob, l);
  }

  method LocalPhase(status: AnyApplicationStatus, v: View) returns (updated: bool, job: Option<Job>, ghost l: NextState)
    requires v.Valid()
    modifies status
    ensures (status.Value(), l) == LocalPart(old(status.Value()), v)
    ensures updated == LocalUpdated(l) && job == l.job
  {
    l := LocalPart(status.Value(), v).1;
    updated, job := false, None;
    if PlacementsContain(status.Value(), v.zone) || v.IsPresent() || HasZone(status.Value(), v.zone) {
      updated, job := LocalStateMachine(status, v);
    }
  }

  method ConcludePhase(status: AnyApplicationStatus, v: View, localUpdated: bool, localJob: Option<Job>,
                       ghost l: NextState)
    returns (panicked: bool, updated: bool, job: Option<Job>)
    requires localUpdated == LocalUpdated(l) && localJob == l.job
    modifies status
    ensures panicked <==> Conclude(old(status.Value()), l, v).Panicked?
    ensures !panicked ==> Conclude(old(status.Value()), l, v) == Derived(status.Value(), updated, job)
  {
    var nextJobs := new NextJobs(localJob);
    updated, job := localUpdated, None;
    panicked := false;
    if status.ownership.owner == v.zone {
      var globalUpdated, globalJob := GlobalStateMachine(status, v);
      updated := updated || globalUpdated;
      panicked := nextJobs.Add(globalJob);
      if panicked {
        return;
      }
    }
    var i, found := status.GetStatusFor(v.zone);
    if found && status.zones[i].conditions == [] {
      status.RemoveZone(v.zone);
      updated := true;
    }
    job := nextJobs.toAdd;
  }

  // Claims an unowned status and notes what is installed and what runs.
  method Note(status: AnyApplicationStatus, v: View) returns (noted: bool)
    modifies status
    ensures status.Value() == Noted(old(status.Value()), v)
    ensures noted <==> v.IsDeployed() || v.running.Some?
  {
    if status.ownership.state == NoState {
      status.ownership := status.ownership.(owner := v.zone, epoch := 1, state := New);
    }
    noted := false;
    if v.IsDeployed() {
      status.InsertCondition(LocalReport(v), v.zone);
      noted := true;
    }
    if v.running.Some? {
      status.InsertCondition(v.running.value.report, v.zone);
      noted := true;
    }
  }

  method DeriveNewStatus(status: AnyApplicationStatus, v: View)
    returns (panicked: bool, updated: bool, job: Option<Job>)
    requires v.Valid()
    modifies status
    ensures panicked <==> Derive(old(status.Value()), v).Panicked?
    ensures !panicked ==> Derive(old(status.Value()), v) == Derived(status.Value(), updated, job)
  {
    var noted := Note(status, v);
    panicked, updated, job := UpdateState(status, v);
    updated := updated || noted;
  }
}
