// The decisions of one reconciliation: what a zone derives from a snapshot of the status, the chart versions
// installed in its cluster and its running job. Written as functions on the status value; module FsmMethods
// performs the same steps in place.
module Fsm {
  import opened Wrappers
  import opened Versions
  import opened Api

  datatype Strategy = LocalStrategy | GlobalStrategy

  datatype Spec = Spec(strategy: Strategy, tolerance: int, maxRetries: int)

  datatype JobType = DeployType | UndeployType | OperationType | PlacementType

  // An operation job keeps the chart version of the snapshot it was created from.
  datatype Job = DeployJob(version: Version) | UndeployJob | OperationJob(version: Version) | PlacementJob {
    function Type(): JobType {
      match this
      case DeployJob(_) => DeployType
      case UndeployJob => UndeployType
      case OperationJob(_) => OperationType
      case PlacementJob => PlacementType
    }
  }

  function ReportType(t: JobType): ConditionType {
    match t
    case DeployType => DeploymentCondition
    case UndeployType => UndeploymentCondition
    case OperationType => LocalCondition
    case PlacementType => PlacementCondition
  }

  // GetStatus of a job that has not run yet.
  function FirstReport(t: JobType, z: ZoneId, now: int): Condition {
    var code := match t
      case DeployType => Pull
      case UndeployType => Undeploy
      case OperationType => Progressing
      case PlacementType => InProgress;
    Condition(ReportType(t), z, code, now, "", "", 0)
  }

  datatype Running = Running(jobType: JobType, report: Condition)

  // What DeriveNewStatus knows besides the status: `installed` holds the chart versions with at least one live
  // resource; `complete` and `health` describe the one that is active, if installed.
  datatype View = View(zone: ZoneId, spec: Spec, active: Option<Version>, newVersion: Option<Version>,
                       installed: set<Version>, complete: bool, health: Code,
                       running: Option<Running>, now: int) {
    predicate IsPresent() { active.Some? && active.value in installed }

    predicate IsDeployed() { IsPresent() && complete }

    predicate NonActiveVersionsPresent() {
      installed - (if active.Some? then {active.value} else {}) != {}
    }

    predicate IsRunning(t: JobType) { running.Some? && running.value.jobType == t }

    // deriveTargetVersion; LoadApplication always supplies one of the two.
    function Target(): Version
      requires newVersion.Some? || active.Some?
    {
      if newVersion.Some? then newVersion.value else active.value
    }

    ghost predicate Valid() {
      && (newVersion.Some? || active.Some?)
      && (running.Some? ==> running.value.report.ctype == ReportType(running.value.jobType)
                            && running.value.report.zone == zone)
    }
  }

  datatype NextState = NextState(nextState: Option<GlobalState>, toAdd: Option<Condition>, toRemove: seq<Condition>,
                                 newVersion: Option<Version>, job: Option<Job>)

  const NOTHING := NextState(None, None, [], None, None)

  predicate PlacementsContain(s: Status, z: ZoneId) {
    s.ownership.placements.Some? &&
    exists i :: 0 <= i < |s.ownership.placements.value| && s.ownership.placements.value[i].zone == z
  }

  // ---- the local state machine ----

  function Listed(toRemove: seq<Condition>, conditions: seq<Condition>, ctype: ConditionType,
                  z: ZoneId): (r: seq<Condition>)
    ensures forall d :: d in r ==> d in toRemove || d.ctype == ctype
  {
    if HasCondition(conditions, ctype, z) then toRemove + [conditions[ConditionIndex(conditions, ctype, z)]]
    else toRemove
  }

  predicate AttemptsExhausted(conditions: seq<Condition>, ctype: ConditionType, maxRetries: int) {
    var k := TypeIndex(conditions, ctype);
    k < |conditions| && conditions[k].code == Failure && conditions[k].retryAttempt >= maxRetries
  }

  predicate MustUndeploy(s: Status, v: View) {
    || (!PlacementsContain(s, v.zone) && v.IsPresent())
    || v.NonActiveVersionsPresent()
    || (v.IsPresent() && v.newVersion.Some?)
  }

  function HandleDeploy(s: Status, v: View): NextState
    requires v.Valid()
  {
    var conditions := Own(s, v.zone).conditions;
    var toRemove := Listed(Listed([], conditions, LocalCondition, v.zone), conditions, UndeploymentCondition, v.zone);
    if !v.IsDeployed() || v.newVersion.Some? then
      if !v.IsRunning(DeployType) && !AttemptsExhausted(conditions, DeploymentCondition, v.spec.maxRetries) then
        NextState(None, Some(FirstReport(DeployType, v.zone, v.now)), toRemove, v.newVersion,
                  Some(DeployJob(v.Target())))
      else NOTHING.(toRemove := toRemove)
    else HandleOperation(s, v)
  }

  function HandleUndeploy(s: Status, v: View): NextState
    requires v.Valid()
  {
    var conditions := Own(s, v.zone).conditions;
    var toRemove := Listed(Listed([], conditions, LocalCondition, v.zone), conditions, DeploymentCondition, v.zone);
    var k := TypeIndex(conditions, UndeploymentCondition);
    if !v.IsRunning(UndeployType) && v.IsPresent()
       && !AttemptsExhausted(conditions, UndeploymentCondition, v.spec.maxRetries) then
      NextState(None, Some(FirstReport(UndeployType, v.zone, v.now)), toRemove,
                if v.newVersion.Some? then Some(v.Target()) else None, Some(UndeployJob))
    else if k < |conditions| && conditions[k].code == Done then
      NOTHING.(toRemove := Listed(toRemove, conditions, UndeploymentCondition, v.zone))
    else NOTHING.(toRemove := toRemove)
  }

  function HandleOperation(s: Status, v: View): NextState
    requires v.Valid()
  {
    var conditions := Own(s, v.zone).conditions;
    var toRemove := Listed([], conditions, UndeploymentCondition, v.zone);
    if v.IsDeployed() && !v.IsRunning(OperationType) then
      NextState(None, Some(FirstReport(OperationType, v.zone, v.now)), toRemove, None,
                Some(OperationJob(v.active.value)))
    else if v.IsRunning(OperationType) || |toRemove| > 0 then
      NOTHING.(toRemove := Listed(toRemove, conditions, DeploymentCondition, v.zone))
    else NOTHING.(toRemove := toRemove)
  }

  function LocalNext(s: Status, v: View): NextState
    requires v.Valid()
  {
    if MustUndeploy(s, v) then HandleUndeploy(s, v)
    else if PlacementsContain(s, v.zone) then
      if !v.IsDeployed() then HandleDeploy(s, v) else HandleOperation(s, v)
    else if !v.IsDeployed() && !v.IsPresent() && HasZone(s, v.zone) then
      NOTHING.(toRemove := Own(s, v.zone).conditions)
    else NOTHING
  }

  // Every handler first creates the zone's entry.
  function LocalTouched(s: Status, v: View): Status {
    if MustUndeploy(s, v) || PlacementsContain(s, v.zone) then Put(s, v.zone, Own(s, v.zone)) else s
  }

  function RemoveAll(s: Status, z: ZoneId, toRemove: seq<Condition>): Status
    decreases |toRemove|
  {
    if toRemove == [] then s
    else RemoveAll(WithoutCondition(s, z, toRemove[0].ctype, toRemove[0].zone), z, toRemove[1..])
  }

  function LocalApplied(s: Status, z: ZoneId, r: NextState): Status {
    var s1 := RemoveAll(s, z, r.toRemove);
    var s2 := if r.toAdd.Some? then WithCondition(s1, z, r.toAdd.value) else s1;
    if r.newVersion.Some? then Put(s2, z, Own(s2, z).(chartVersion := r.newVersion)) else s2
  }

  predicate LocalUpdated(r: NextState) {
    r.toRemove != [] || r.toAdd.Some? || r.newVersion.Some? || r.job.Some?
  }

  // ---- the global state machine ----

  predicate FailingCondition(c: Condition) {
    || (c.ctype == LocalCondition && (c.code == Degraded || c.code == Missing))
    || (c.ctype == DeploymentCondition && c.code == Failure)
    || (c.ctype == UndeploymentCondition && c.code == Failure)
  }

  ghost predicate FailingZone(zs: ZoneStatus) {
    exists k :: 0 <= k < |zs.conditions| && FailingCondition(zs.conditions[k])
  }

  // Positions of the zone entries that hold a failing condition.
  ghost function FailingZones(zones: seq<ZoneStatus>): set<int> {
    set i | 0 <= i < |zones| && FailingZone(zones[i])
  }

  ghost predicate TooManyFailures(s: Status, spec: Spec) {
    |FailingZones(s.zones)| > spec.tolerance
  }

  ghost predicate ZoneOperates(s: Status, z: ZoneId) {
    HasZone(s, z) && HasCondition(Own(s, z).conditions, LocalCondition, z)
  }

  ghost predicate AllPlacementsOperate(s: Status) {
    s.ownership.placements.Some? ==>
      forall i :: 0 <= i < |s.ownership.placements.value| ==> ZoneOperates(s, s.ownership.placements.value[i].zone)
  }

  function HandlePlacement(s: Status, v: View): NextState {
    var conditions := Own(s, v.zone).conditions;
    if v.spec.strategy.LocalStrategy? then
      if !HasCondition(conditions, PlacementCondition, v.zone) || !v.IsRunning(PlacementType) then
        NextState(Some(Placing), Some(FirstReport(PlacementType, v.zone, v.now)), [], None, Some(PlacementJob))
      else if conditions[ConditionIndex(conditions, PlacementCondition, v.zone)].code == Failure then
        NOTHING.(nextState := Some(Failed))
      else NOTHING.(nextState := Some(Placing))
    else NOTHING.(nextState := Some(Placing))
  }

  // The stored global state in one formula: failure if too many zones fail, else operational if every
  // placement zone has a local condition, else relocation.
  ghost function GlobalNext(s: Status, v: View): NextState {
    if s.ownership.placements.None? then HandlePlacement(s, v)
    else NOTHING.(nextState := Some(if TooManyFailures(s, v.spec) then Failed
                                    else if AllPlacementsOperate(s) then Operational
                                    else Relocation))
  }

  function GlobalApplied(s: Status, z: ZoneId, r: NextState): Status {
    var s1 := if r.toAdd.Some? then WithCondition(s, z, r.toAdd.value) else s;
    s1.(ownership := s1.ownership.(state := if r.nextState.Some? then r.nextState.value else s1.ownership.state))
  }

  predicate GlobalUpdated(s: Status, r: NextState) {
    r.job.Some? || r.toAdd.Some? || (r.nextState.Some? && r.nextState.value != s.ownership.state)
  }

  // ---- updateState and DeriveNewStatus ----

  // `Panicked` is the "Multiple jobs to schedule" panic of NextJobs.Add.
  datatype Derived = Panicked | Derived(status: Status, updated: bool, job: Option<Job>)

  predicate LocalApplies(s: Status, v: View) {
    PlacementsContain(s, v.zone) || v.IsPresent() || HasZone(s, v.zone)
  }

  function LocalPart(s: Status, v: View): (Status, NextState)
    requires v.Valid()
  {
    if LocalApplies(s, v) then
      var r := LocalNext(s, v);
      (LocalApplied(LocalTouched(s, v), v.zone, r), r)
    else (s, NOTHING)
  }

  ghost function OwnerPart(s1: Status, v: View): (Status, NextState) {
    if s1.ownership.owner == v.zone then
      var g := GlobalNext(s1, v);
      (GlobalApplied(s1, v.zone, g), g)
    else (s1, NOTHING)
  }

  // updateState after the local state machine: the owner's global step, the merged job requests, and an own
  // entry left without conditions dropped.
  ghost function Conclude(s1: Status, l: NextState, v: View): Derived {
    var (s2, g) := OwnerPart(s1, v);
    if l.job.Some? && g.job.Some? then Panicked
    else
      var job := if l.job.Some? then l.job else g.job;
      if HasZone(s2, v.zone) && Own(s2, v.zone).conditions == [] then Derived(RemoveZone(s2, v.zone), true, job)
      else Derived(s2, LocalUpdated(l) || GlobalUpdated(s1, g), job)
  }

  ghost function UpdateState(s: Status, v: View): Derived
    requires v.Valid()
  {
    var (s1, l) := LocalPart(s, v);
    Conclude(s1, l, v)
  }

  function Claimed(s: Status, z: ZoneId): Status {
    if s.ownership.state == NoState then s.(ownership := s.ownership.(owner := z, epoch := 1, state := New)) else s
  }

  function LocalReport(v: View): Condition { Condition(LocalCondition, v.zone, v.health, v.now, "", "", 0) }

  // The snapshot with ownership claimed and the conditions of the installed application and running job inserted.
  function Noted(s: Status, v: View): Status {
    var s1 := Claimed(s, v.zone);
    var s2 := if v.IsDeployed() then WithCondition(s1, v.zone, LocalReport(v)) else s1;
    if v.running.Some? then WithCondition(s2, v.zone, v.running.value.report) else s2
  }

  ghost function Derive(s: Status, v: View): Derived
    requires v.Valid()
  {
    var r := UpdateState(Noted(s, v), v);
    if r.Derived? then r.(updated := r.updated || v.IsDeployed() || v.running.Some?) else r
  }

  // ---- what the local step does to the status ----

  lemma {:induction false} RemoveAllFrame(s: Status, z: ZoneId, toRemove: seq<Condition>)
    ensures var r := RemoveAll(s, z, toRemove);
      && r.ownership == s.ownership && SameOthers(s, r, z) && HasZone(r, z) == HasZone(s, z)
      && Own(r, z).chartVersion == Own(s, z).chartVersion && Own(r, z).zoneVersion == Own(s, z).zoneVersion
      && (forall c :: c in Own(r, z).conditions <==>
            c in Own(s, z).conditions && forall d :: d in toRemove ==> KeyOf(d) != KeyOf(c))
    decreases |toRemove|
  {
    if toRemove != [] {
      var c := toRemove[0];
      var s1 := WithoutCondition(s, z, c.ctype, c.zone);
      if HasZone(s, z) {
        var own := Own(s, z).(conditions := Drop(Own(s, z).conditions, c.ctype, c.zone));
        PutOwn(s, z, own);
        PutSameOthers(s, z, own);
      }
      DropElements(Own(s, z).conditions, c.ctype, c.zone);
      assert forall e :: e in Own(s1, z).conditions <==> e in Own(s, z).conditions && KeyOf(e) != KeyOf(c);
      RemoveAllFrame(s1, z, toRemove[1..]);
      assert forall d :: d in toRemove <==> d == c || d in toRemove[1..];
    }
  }

  lemma WithConditionFrame(s: Status, z: ZoneId, c: Condition)
    ensures var r := WithCondition(s, z, c);
      && r.ownership == s.ownership && SameOthers(s, r, z) && HasZone(r, z)
      && Own(r, z) == Own(s, z).(conditions := Insert(Own(s, z).conditions, c))
  {
    var own := Own(s, z).(conditions := Insert(Own(s, z).conditions, c));
    PutOwn(s, z, own);
    PutSameOthers(s, z, own);
  }

  // The version the local step stores: the new one exactly when it starts a deployment or undeployment.
  function VersionAfter(before: Option<Version>, l: NextState): Option<Version> {
    if l.newVersion.Some? then l.newVersion else before
  }

  lemma LocalPartFrame(s: Status, v: View)
    requires v.Valid()
    ensures var (s1, l) := LocalPart(s, v);
      && s1.ownership == s.ownership && SameOthers(s, s1, v.zone)
      && Own(s1, v.zone).chartVersion == VersionAfter(Own(s, v.zone).chartVersion, l)
      && Own(s1, v.zone).zoneVersion == Own(s, v.zone).zoneVersion
      && (HasZone(s1, v.zone) <==>
            HasZone(s, v.zone) || (LocalApplies(s, v) && (MustUndeploy(s, v) || PlacementsContain(s, v.zone))))
      && (forall c :: c in Own(s1, v.zone).conditions ==> c in Own(s, v.zone).conditions || l.toAdd == Some(c))
      && (forall c :: c in Own(s, v.zone).conditions && (forall d :: d in l.toRemove ==> KeyOf(d) != KeyOf(c))
            ==> c in Own(s1, v.zone).conditions)
      && (l.toAdd.Some? ==> Own(s1, v.zone).conditions != [])
  {
    if LocalApplies(s, v) {
      PutOwn(s, v.zone, Own(s, v.zone));
      PutSameOthers(s, v.zone, Own(s, v.zone));
      LocalAppliedFrame(LocalTouched(s, v), v.zone, LocalNext(s, v));
      NewVersionNeedsEntry(s, v);
    }
  }

  lemma NewVersionNeedsEntry(s: Status, v: View)
    requires v.Valid() && LocalApplies(s, v)
    ensures var l := LocalNext(s, v);
      l.toAdd.Some? || l.newVersion.Some? ==> MustUndeploy(s, v) || PlacementsContain(s, v.zone)
  {}

  lemma LocalAppliedFrame(t: Status, z: ZoneId, l: NextState)
    ensures var r := LocalApplied(t, z, l);
      && r.ownership == t.ownership && SameOthers(t, r, z)
      && Own(r, z).chartVersion == VersionAfter(Own(t, z).chartVersion, l)
      && Own(r, z).zoneVersion == Own(t, z).zoneVersion
      && (HasZone(r, z) <==> HasZone(t, z) || l.toAdd.Some? || l.newVersion.Some?)
      && (forall c :: c in Own(r, z).conditions ==> c in Own(t, z).conditions || l.toAdd == Some(c))
      && (forall c :: c in Own(t, z).conditions && (forall d :: d in l.toRemove ==> KeyOf(d) != KeyOf(c))
            ==> c in Own(r, z).conditions)
      && (l.toAdd.Some? ==> Own(r, z).conditions != [])
  {
    var s1 := RemoveAll(t, z, l.toRemove);
    RemoveAllFrame(t, z, l.toRemove);
    var s2 := if l.toAdd.Some? then WithCondition(s1, z, l.toAdd.value) else s1;
    if l.toAdd.Some? { WithConditionFrame(s1, z, l.toAdd.value); }
    if l.newVersion.Some? {
      PutOwn(s2, z, Own(s2, z).(chartVersion := l.newVersion));
      PutSameOthers(s2, z, Own(s2, z).(chartVersion := l.newVersion));
    }
  }

  // The job the local state machine asks for, branch by branch.
  function LocalJob(s: Status, v: View): Option<Job>
    requires v.Valid()
  {
    var conditions := Own(s, v.zone).conditions;
    if MustUndeploy(s, v) then
      if v.IsPresent() && !v.IsRunning(UndeployType)
         && !AttemptsExhausted(conditions, UndeploymentCondition, v.spec.maxRetries)
      then Some(UndeployJob) else None
    else if !PlacementsContain(s, v.zone) then None
    else if !v.IsDeployed() then
      if !v.IsRunning(DeployType) && !AttemptsExhausted(conditions, DeploymentCondition, v.spec.maxRetries)
      then Some(DeployJob(v.Target())) else None
    else if v.IsRunning(OperationType) then None
    else Some(OperationJob(v.active.value))
  }

  // A version is stored only together with a deployment or undeployment.
  lemma LocalJobs(s: Status, v: View)
    requires v.Valid()
    ensures Asks(LocalPart(s, v).1, v, LocalJob(s, v),
                 if MustUndeploy(s, v) || !v.IsDeployed() then v.newVersion else None)
    ensures LocalJob(s, v).Some? ==> LocalApplies(s, v) && (PlacementsContain(s, v.zone) || v.IsPresent())
  {
    if LocalApplies(s, v) {
      if MustUndeploy(s, v) { UndeployHandled(s, v); }
      else if !v.IsDeployed() { DeployHandled(s, v); }
      else { OperationHandled(s, v); }
    }
  }

  // A handler's result: a job with its first report and version, or conditions to remove at most.
  ghost predicate Asks(l: NextState, v: View, job: Option<Job>, newVersion: Option<Version>) {
    && l.nextState.None? && l.job == job
    && l.toAdd == (if job.Some? then Some(FirstReport(job.value.Type(), v.zone, v.now)) else None)
    && l.newVersion == if job.Some? then newVersion else None
  }

  lemma DeployHandled(s: Status, v: View)
    requires v.Valid() && !v.IsDeployed()
    ensures Asks(HandleDeploy(s, v), v,
      if !v.IsRunning(DeployType)
         && !AttemptsExhausted(Own(s, v.zone).conditions, DeploymentCondition, v.spec.maxRetries)
      then Some(DeployJob(v.Target())) else None, v.newVersion)
  {}

  lemma UndeployHandled(s: Status, v: View)
    requires v.Valid()
    ensures Asks(HandleUndeploy(s, v), v,
      if !v.IsRunning(UndeployType) && v.IsPresent()
         && !AttemptsExhausted(Own(s, v.zone).conditions, UndeploymentCondition, v.spec.maxRetries)
      then Some(UndeployJob) else None, v.newVersion)
  {}

  lemma OperationHandled(s: Status, v: View)
    requires v.Valid()
    ensures Asks(HandleOperation(s, v), v,
      if v.IsDeployed() && !v.IsRunning(OperationType) then Some(OperationJob(v.active.value)) else None, None)
  {}

  // The job of a derivation is the local one; only without one, the owner's placement job.
  lemma ConcludeJob(s1: Status, l: NextState, v: View)
    requires Conclude(s1, l, v).Derived?
    ensures var job := Conclude(s1, l, v).job;
      if l.job.Some? then job == l.job else job.None? || job == Some(PlacementJob)
  {
  }

  // ---- what a whole derivation does ----

  lemma NotedFrame(s: Status, v: View)
    ensures var n := Noted(s, v);
      && n.ownership == Claimed(s, v.zone).ownership && SameOthers(s, n, v.zone)
      && Own(n, v.zone).chartVersion == Own(s, v.zone).chartVersion
      && (HasZone(n, v.zone) <==> HasZone(s, v.zone) || v.IsDeployed() || v.running.Some?)
      && (forall c :: c in Own(s, v.zone).conditions ==> c in Own(n, v.zone).conditions)
      && (forall c :: c in Own(n, v.zone).conditions ==>
            || c in Own(s, v.zone).conditions
            || (v.IsDeployed() && c == LocalReport(v)) || (v.running.Some? && c == v.running.value.report))
      && (v.IsDeployed() ==> HasCondition(Own(n, v.zone).conditions, LocalCondition, v.zone))
      && (v.running.Some? ==> var k := v.running.value.report; HasCondition(Own(n, v.zone).conditions, k.ctype, k.zone))
  {
    var s1 := Claimed(s, v.zone);
    assert Own(s1, v.zone) == Own(s, v.zone);
    var s2 := if v.IsDeployed() then WithCondition(s1, v.zone, LocalReport(v)) else s1;
    if v.IsDeployed() { InsertedFrame(s1, v.zone, LocalReport(v)); }
    if v.running.Some? { InsertedFrame(s2, v.zone, v.running.value.report); }
  }

  lemma InsertedFrame(s: Status, z: ZoneId, c: Condition)
    ensures var r := WithCondition(s, z, c);
      && r.ownership == s.ownership && SameOthers(s, r, z) && HasZone(r, z)
      && Own(r, z).chartVersion == Own(s, z).chartVersion
      && (forall d :: d in Own(s, z).conditions ==> d in Own(r, z).conditions)
      && (forall d :: d in Own(r, z).conditions ==> d in Own(s, z).conditions || d == c)
      && HasCondition(Own(r, z).conditions, c.ctype, c.zone)
      && (forall t, y :: HasCondition(Own(s, z).conditions, t, y) ==> HasCondition(Own(r, z).conditions, t, y))
  {
    WithConditionFrame(s, z, c);
    Inserted(Own(s, z).conditions, c);
    forall t, y | HasCondition(Own(s, z).conditions, t, y)
      ensures HasCondition(Own(WithCondition(s, z, c), z).conditions, t, y)
    {
      InsertKeeps(Own(s, z).conditions, c, t, y);
    }
  }

  lemma Inserted(conditions: seq<Condition>, c: Condition)
    ensures HasCondition(Insert(conditions, c), c.ctype, c.zone)
  {
    assert c in conditions + [c];
    if !HasCondition(conditions, c.ctype, c.zone) { Member(conditions + [c], c); }
  }

  lemma InsertKeeps(conditions: seq<Condition>, c: Condition, ctype: ConditionType, z: ZoneId)
    requires HasCondition(conditions, ctype, z)
    ensures HasCondition(Insert(conditions, c), ctype, z)
  {
    var r, i := Insert(conditions, c), ConditionIndex(conditions, ctype, z);
    assert r[i] == conditions[i];
  }

  // A derivation touches only the zone's own entry, and of the ownership only the state, unless it claims a
  // status that has no state yet.
  lemma DeriveFrame(s: Status, v: View)
    requires v.Valid() && Derive(s, v).Derived?
    ensures var n, o := Derive(s, v).status, Claimed(s, v.zone).ownership;
      && SameOthers(s, n, v.zone)
      && n.ownership == o.(state := n.ownership.state)
      && (o.owner != v.zone ==> n.ownership == o)
      && (o.state != NoState ==> n.ownership.state != NoState)
      && (o.state != UnknownState ==> n.ownership.state != UnknownState)
      && (HasZone(n, v.zone) ==>
            && Own(n, v.zone).conditions != []
            && Own(n, v.zone).chartVersion == VersionAfter(Own(s, v.zone).chartVersion, LocalPart(Noted(s, v), v).1))
  {
    NotedFrame(s, v);
    LocalPartFrame(Noted(s, v), v);
    var (s1, l) := LocalPart(Noted(s, v), v);
    ConcludeFrame(s1, l, v);
  }

  lemma ConcludeFrame(s1: Status, l: NextState, v: View)
    ensures Conclude(s1, l, v).Panicked? <==>
      l.job.Some? && s1.ownership.owner == v.zone && GlobalNext(s1, v).job.Some?
    ensures Conclude(s1, l, v).Derived? ==>
      var n := Conclude(s1, l, v).status;
      && SameOthers(s1, n, v.zone)
      && n.ownership == s1.ownership.(state := n.ownership.state)
      && (s1.ownership.owner != v.zone ==> n.ownership == s1.ownership)
      && (s1.ownership.state != NoState ==> n.ownership.state != NoState)
      && (s1.ownership.state != UnknownState ==> n.ownership.state != UnknownState)
      && (HasZone(n, v.zone) ==>
            && Own(n, v.zone).conditions != []
            && Own(n, v.zone).chartVersion == Own(s1, v.zone).chartVersion)
  {
    OwnerPartFrame(s1, v);
    OthersLacksZone(OwnerPart(s1, v).0.zones, v.zone);
  }

  lemma OwnerPartFrame(s1: Status, v: View)
    ensures var (s2, g) := OwnerPart(s1, v);
      && SameOthers(s1, s2, v.zone)
      && s2.ownership == s1.ownership.(state := s2.ownership.state)
      && (s1.ownership.owner != v.zone ==> s2 == s1)
      && (s1.ownership.state != NoState ==> s2.ownership.state != NoState)
      && (s1.ownership.state != UnknownState ==> s2.ownership.state != UnknownState)
      && Own(s2, v.zone).chartVersion == Own(s1, v.zone).chartVersion
      && (g.job.Some? ==> s1.ownership.owner == v.zone && g == GlobalNext(s1, v))
  {
    var g := GlobalNext(s1, v);
    if g.toAdd.Some? { WithConditionFrame(s1, v.zone, g.toAdd.value); }
  }

  // A zone that does not own the application never changes ownership of a snapshot that has a state.
  lemma NonOwnerKeepsOwnership(s: Status, v: View)
    requires v.Valid() && Derive(s, v).Derived?
    requires s.ownership.state != NoState && s.ownership.owner != v.zone
    ensures Derive(s, v).status.ownership == s.ownership
  {
    DeriveFrame(s, v);
  }

  // ---- which job a derivation asks for ----

  lemma TypeIndexIs(conditions: seq<Condition>, ctype: ConditionType, k: nat)
    requires k <= |conditions| && (k < |conditions| ==> conditions[k].ctype == ctype)
    requires forall j :: 0 <= j < k ==> conditions[j].ctype != ctype
    ensures TypeIndex(conditions, ctype) == k
  {}

  lemma InsertKeepsAttempts(conditions: seq<Condition>, c: Condition, ctype: ConditionType, maxRetries: int)
    requires c.ctype != ctype
    ensures AttemptsExhausted(Insert(conditions, c), ctype, maxRetries) ==
            AttemptsExhausted(conditions, ctype, maxRetries)
  {
    var k := TypeIndex(conditions, ctype);
    TypeIndexIs(conditions + [c], ctype, if k < |conditions| then k else |conditions| + 1);
  }

  // What is noted before the decision does not count as a failed attempt, unless the attempt's own job runs.
  lemma NotedKeepsAttempts(s: Status, v: View, t: JobType)
    requires v.Valid() && (t == DeployType || t == UndeployType) && !v.IsRunning(t)
    ensures AttemptsExhausted(Own(Noted(s, v), v.zone).conditions, ReportType(t), v.spec.maxRetries) ==
            AttemptsExhausted(Own(s, v.zone).conditions, ReportType(t), v.spec.maxRetries)
  {
    var z, s1 := v.zone, Claimed(s, v.zone);
    assert Own(s1, z) == Own(s, z);
    var s2 := if v.IsDeployed() then WithCondition(s1, z, LocalReport(v)) else s1;
    if v.IsDeployed() {
      WithConditionFrame(s1, z, LocalReport(v));
      InsertKeepsAttempts(Own(s1, z).conditions, LocalReport(v), ReportType(t), v.spec.maxRetries);
    }
    if v.running.Some? {
      WithConditionFrame(s2, z, v.running.value.report);
      InsertKeepsAttempts(Own(s2, z).conditions, v.running.value.report, ReportType(t), v.spec.maxRetries);
    }
  }

  lemma NotedKeepsJob(s: Status, v: View)
    requires v.Valid()
    ensures LocalJob(Noted(s, v), v) == LocalJob(s, v) && MustUndeploy(Noted(s, v), v) == MustUndeploy(s, v)
    ensures PlacementsContain(Noted(s, v), v.zone) == PlacementsContain(s, v.zone)
  {
    NotedFrame(s, v);
    if !v.IsRunning(DeployType) { NotedKeepsAttempts(s, v, DeployType); }
    if !v.IsRunning(UndeployType) { NotedKeepsAttempts(s, v, UndeployType); }
  }

  // The owner of an unplaced application under the local strategy places it, unless the placement job runs and its
  // condition survives because an undeployment is due.
  predicate MustPlace(s: Status, v: View) {
    && Claimed(s, v.zone).ownership.owner == v.zone
    && v.spec.strategy.LocalStrategy? && s.ownership.placements.None?
    && !(v.IsRunning(PlacementType) && MustUndeploy(s, v))
  }

  // The complete decision table over both state machines, read off the snapshot: the local job, else the placement
  // job; and the panic exactly if there would be both.
  lemma JobsExactly(s: Status, v: View)
    requires v.Valid()
    ensures Derive(s, v).Panicked? <==> LocalJob(s, v).Some? && MustPlace(s, v)
    ensures Derive(s, v).Derived? ==>
      Derive(s, v).job == if LocalJob(s, v).Some? then LocalJob(s, v)
                          else if MustPlace(s, v) then Some(PlacementJob) else None
  {
    var b := Noted(s, v);
    NotedFrame(s, v);
    NotedKeepsJob(s, v);
    LocalJobs(b, v);
    var (s1, l) := LocalPart(b, v);
    LocalPartFrame(b, v);
    PlacementExactly(b, v);
    ConcludeTable(s1, l, v, MustPlace(s, v));
  }

  lemma ConcludeTable(s1: Status, l: NextState, v: View, places: bool)
    requires places <==> s1.ownership.owner == v.zone && GlobalNext(s1, v).job.Some?
    ensures Conclude(s1, l, v).Panicked? <==> l.job.Some? && places
    ensures Conclude(s1, l, v).Derived? ==>
      Conclude(s1, l, v).job == if l.job.Some? then l.job else if places then Some(PlacementJob) else None
  {}

  lemma PlacementExactly(b: Status, v: View)
    requires v.Valid() && (v.running.Some? ==>
      var k := v.running.value.report; HasCondition(Own(b, v.zone).conditions, k.ctype, k.zone))
    ensures var s1 := LocalPart(b, v).0;
      GlobalNext(s1, v).job.Some? <==>
        && v.spec.strategy.LocalStrategy? && b.ownership.placements.None?
        && !(v.IsRunning(PlacementType) && MustUndeploy(b, v))
  {
    LocalPartFrame(b, v);
    if v.IsRunning(PlacementType) && b.ownership.placements.None? {
      if MustUndeploy(b, v) { PlacementReportStays(b, v); } else { PlacementReportGoes(b, v); }
    }
  }

  // A placed zone that need not undeploy, is not deployed, runs no deployment and has attempts left.
  predicate MayDeploy(s: Status, v: View) {
    && PlacementsContain(s, v.zone) && !MustUndeploy(s, v) && !v.IsDeployed() && !v.IsRunning(DeployType)
    && !AttemptsExhausted(Own(s, v.zone).conditions, DeploymentCondition, v.spec.maxRetries)
  }

  // A derivation asks for a deployment exactly then: of the target, with nothing else installed.
  lemma DeployRequest(s: Status, v: View)
    requires v.Valid()
    ensures MayDeploy(s, v) <==>
      Derive(s, v).Derived? && Derive(s, v).job.Some? && Derive(s, v).job.value.DeployJob?
    ensures MayDeploy(s, v) ==> Derive(s, v).job == Some(DeployJob(v.Target())) && v.installed <= {v.Target()}
  {
    JobsExactly(s, v);
  }

  // Exactly when both state machines schedule a job: the owner of an unplaced application under the local
  // strategy still has the active version installed, runs neither an undeployment nor a placement, and has
  // undeployment attempts left.
  lemma PanicsExactlyWhen(s: Status, v: View)
    requires v.Valid()
    ensures Derive(s, v).Panicked? <==>
      && Claimed(s, v.zone).ownership.owner == v.zone
      && v.spec.strategy.LocalStrategy? && s.ownership.placements.None?
      && v.IsPresent() && !v.IsRunning(UndeployType) && !v.IsRunning(PlacementType)
      && !AttemptsExhausted(Own(s, v.zone).conditions, UndeploymentCondition, v.spec.maxRetries)
  {
    JobsExactly(s, v);
  }

  // A running placement job's own condition survives the undeploy handler, and nothing else.
  lemma PlacementReportStays(s: Status, v: View)
    requires v.Valid() && MustUndeploy(s, v)
    requires HasCondition(Own(s, v.zone).conditions, PlacementCondition, v.zone)
    ensures HasCondition(Own(LocalPart(s, v).0, v.zone).conditions, PlacementCondition, v.zone)
  {
    LocalPartFrame(s, v);
    var before, after := Own(s, v.zone).conditions, Own(LocalPart(s, v).0, v.zone).conditions;
    var c := before[ConditionIndex(before, PlacementCondition, v.zone)];
    assert c in before && HasZone(s, v.zone);
    UndeployRemoves(s, v);
    assert c in after;
    Member(after, c);
  }

  lemma PlacementReportGoes(s: Status, v: View)
    requires v.Valid() && !MustUndeploy(s, v) && !PlacementsContain(s, v.zone)
    ensures !HasCondition(Own(LocalPart(s, v).0, v.zone).conditions, PlacementCondition, v.zone)
  {
    var own := Own(s, v.zone).conditions;
    LocalPartFrame(s, v);
    if HasZone(s, v.zone) { RemoveAllFrame(s, v.zone, own); }
    NoElements(Own(LocalPart(s, v).0, v.zone).conditions);
  }

  lemma UndeployRemoves(s: Status, v: View)
    requires v.Valid() && MustUndeploy(s, v) && LocalApplies(s, v)
    ensures forall d :: d in LocalPart(s, v).1.toRemove ==>
      d.ctype == LocalCondition || d.ctype == DeploymentCondition || d.ctype == UndeploymentCondition
  {
  }

  // ---- the stored global state ----

  // After any step of the owner with placements, the state is the formula above, read off the derived status.
  lemma GlobalStateIsDeclarative(s: Status, v: View)
    requires v.Valid() && Derive(s, v).Derived?
    requires Claimed(s, v.zone).ownership.owner == v.zone && s.ownership.placements.Some?
    requires WellFormedStatus(s)
    ensures var n := Derive(s, v).status;
      && (n.ownership.state == Failed <==> TooManyFailures(n, v.spec))
      && (n.ownership.state == Operational <==> !TooManyFailures(n, v.spec) && AllPlacementsOperate(n))
      && (n.ownership.state == Relocation <==> !TooManyFailures(n, v.spec) && !AllPlacementsOperate(n))
  {
    NotedFrame(s, v);
    var b := Noted(s, v);
    LocalPartFrame(b, v);
    var (s1, l) := LocalPart(b, v);
    LocalWellFormed(s, v);
    var s2 := GlobalApplied(s1, v.zone, GlobalNext(s1, v));
    SameVerdict(s1, s2, v.spec);
    if HasZone(s2, v.zone) && Own(s2, v.zone).conditions == [] {
      DroppingEmptyZone(s2, v.zone, v.spec);
    }
  }

  lemma SameVerdict(s: Status, t: Status, spec: Spec)
    requires s.zones == t.zones && s.ownership.placements == t.ownership.placements
    ensures TooManyFailures(s, spec) == TooManyFailures(t, spec)
    ensures AllPlacementsOperate(s) == AllPlacementsOperate(t)
  {
    assert forall z :: ZoneOperates(s, z) == ZoneOperates(t, z);
  }

  ghost function CountFailing(zones: seq<ZoneStatus>): nat {
    if zones == [] then 0 else (if FailingZone(zones[0]) then 1 else 0) + CountFailing(zones[1..])
  }

  ghost function FailingBelow(zones: seq<ZoneStatus>, n: nat): set<int>
    requires n <= |zones|
  {
    set i | 0 <= i < n && FailingZone(zones[i])
  }

  lemma FailingStep(zones: seq<ZoneStatus>, n: nat)
    requires n < |zones|
    ensures |FailingBelow(zones, n + 1)| == |FailingBelow(zones, n)| + (if FailingZone(zones[n]) then 1 else 0)
  {
    assert FailingBelow(zones, n + 1) == FailingBelow(zones, n) + (if FailingZone(zones[n]) then {n} else {});
  }

  lemma {:induction false} FailingShift(zones: seq<ZoneStatus>, n: nat)
    requires n < |zones|
    ensures |FailingBelow(zones, n + 1)| == (if FailingZone(zones[0]) then 1 else 0) + |FailingBelow(zones[1..], n)|
  {
    FailingStep(zones, n);
    if n > 0 {
      FailingShift(zones, n - 1);
      FailingStep(zones[1..], n - 1);
    } else {
      assert FailingBelow(zones, 0) == {} && FailingBelow(zones[1..], 0) == {};
    }
  }

  lemma {:induction false} CountIsCardinality(zones: seq<ZoneStatus>)
    ensures CountFailing(zones) == |FailingZones(zones)|
  {
    assert FailingZones(zones) == FailingBelow(zones, |zones|);
    if zones != [] {
      CountIsCardinality(zones[1..]);
      assert FailingZones(zones[1..]) == FailingBelow(zones[1..], |zones| - 1);
      FailingShift(zones, |zones| - 1);
    }
  }

  lemma {:induction false} OthersFailing(zones: seq<ZoneStatus>, z: ZoneId)
    requires forall i :: 0 <= i < |zones| && zones[i].zoneId == z ==> zones[i].conditions == []
    ensures CountFailing(Others(zones, z)) == CountFailing(zones)
  {
    if zones != [] {
      var rest := Others(zones[1..], z);
      OthersFailing(zones[1..], z);
      if zones[0].zoneId == z {
        assert Others(zones, z) == rest && !FailingZone(zones[0]);
      } else {
        assert Others(zones, z)[1..] == rest;
      }
    }
  }

  // The only entry of a zone, if it has no conditions, fails nothing and operates nothing.
  lemma DroppingEmptyZone(s: Status, z: ZoneId, spec: Spec)
    requires UniqueZones(s.zones) && HasZone(s, z) && Own(s, z).conditions == []
    ensures TooManyFailures(RemoveZone(s, z), spec) == TooManyFailures(s, spec)
    ensures AllPlacementsOperate(RemoveZone(s, z)) == AllPlacementsOperate(s)
  {
    CountIsCardinality(s.zones);
    CountIsCardinality(Others(s.zones, z));
    OthersFailing(s.zones, z);
    OthersLacksZone(s.zones, z);
    forall y ensures ZoneOperates(s, y) == ZoneOperates(RemoveZone(s, z), y) {
      if y != z { OthersKeepEntry(s.zones, z, y); }
    }
  }

  // Failure is monotone in the failing zones and antitone in the tolerance.
  lemma FailureMonotone(s: Status, t: Status, spec: Spec, spec': Spec)
    requires FailingZones(s.zones) <= FailingZones(t.zones) && spec'.tolerance <= spec.tolerance
    requires TooManyFailures(s, spec)
    ensures TooManyFailures(t, spec')
  {
    var a, b := FailingZones(s.zones), FailingZones(t.zones);
    assert b == a + (b - a);
    assert |b| == |a| + |b - a|;
  }

  // ---- the lists stay maps ----

  lemma WithConditionWellFormed(s: Status, z: ZoneId, c: Condition)
    requires WellFormedStatus(s) && c.zone == z
    ensures WellFormedStatus(WithCondition(s, z, c))
  {
    OwnWellFormed(s, z);
    InsertRefines(Own(s, z).conditions, c);
    PutRefines(s, z, Own(s, z).(conditions := Insert(Own(s, z).conditions, c)));
  }

  lemma OwnWellFormed(s: Status, z: ZoneId)
    requires WellFormedStatus(s)
    ensures WellFormedZone(Own(s, z))
  {}

  lemma {:induction false} RemoveAllWellFormed(s: Status, z: ZoneId, toRemove: seq<Condition>)
    requires WellFormedStatus(s)
    ensures WellFormedStatus(RemoveAll(s, z, toRemove))
    decreases |toRemove|
  {
    if toRemove != [] {
      var c := toRemove[0];
      if HasZone(s, z) {
        OwnWellFormed(s, z);
        DropElements(Own(s, z).conditions, c.ctype, c.zone);
        var own := Own(s, z).(conditions := Drop(Own(s, z).conditions, c.ctype, c.zone));
        forall i | 0 <= i < |own.conditions| ensures own.conditions[i].zone == z {
          assert own.conditions[i] in Own(s, z).conditions;
        }
        PutRefines(s, z, own);
      }
      RemoveAllWellFormed(WithoutCondition(s, z, c.ctype, c.zone), z, toRemove[1..]);
    }
  }

  lemma LocalWellFormed(s: Status, v: View)
    requires WellFormedStatus(s) && v.Valid()
    ensures WellFormedStatus(Noted(s, v)) && WellFormedStatus(LocalPart(Noted(s, v), v).0)
  {
    var z := v.zone;
    if v.IsDeployed() { WithConditionWellFormed(Claimed(s, z), z, LocalReport(v)); }
    if v.running.Some? {
      WithConditionWellFormed(if v.IsDeployed() then WithCondition(Claimed(s, z), z, LocalReport(v)) else Claimed(s, z),
                              z, v.running.value.report);
    }
    var b := Noted(s, v);
    assert WellFormedStatus(b);
    LocalAppliedWellFormed(b, v);
  }

  lemma LocalAppliedWellFormed(b: Status, v: View)
    requires WellFormedStatus(b) && v.Valid()
    ensures WellFormedStatus(LocalPart(b, v).0)
  {
    var z := v.zone;
    if LocalApplies(b, v) {
      var l := LocalNext(b, v);
      assert l.toAdd.Some? ==> l.toAdd.value.zone == z;
      var t := LocalTouched(b, v);
      OwnWellFormed(b, z);
      PutRefines(b, z, Own(b, z));
      RemoveAllWellFormed(t, z, l.toRemove);
      var s1 := RemoveAll(t, z, l.toRemove);
      if l.toAdd.Some? { WithConditionWellFormed(s1, z, l.toAdd.value); }
      var s2 := if l.toAdd.Some? then WithCondition(s1, z, l.toAdd.value) else s1;
      OwnWellFormed(s2, z);
      PutRefines(s2, z, Own(s2, z).(chartVersion := l.newVersion));
    }
  }

  // Every derivation keeps zone ids unique, conditions unique by type and zone, and each condition under its zone.
  lemma DeriveWellFormed(s: Status, v: View)
    requires WellFormedStatus(s) && v.Valid() && Derive(s, v).Derived?
    ensures WellFormedStatus(Derive(s, v).status)
  {
    LocalWellFormed(s, v);
    ConcludeWellFormed(LocalPart(Noted(s, v), v).0, LocalPart(Noted(s, v), v).1, v);
  }

  lemma ConcludeWellFormed(s1: Status, l: NextState, v: View)
    requires WellFormedStatus(s1) && Conclude(s1, l, v).Derived?
    ensures WellFormedStatus(Conclude(s1, l, v).status)
  {
    var g := GlobalNext(s1, v);
    if g.toAdd.Some? { WithConditionWellFormed(s1, v.zone, g.toAdd.value); }
    var s2 := if s1.ownership.owner == v.zone then GlobalApplied(s1, v.zone, g) else s1;
    RemoveZoneRefines(s2, v.zone);
  }
}
