// The whole protocol: any number of zone controllers reconcile one application over one stored status. A
// reconciliation is a sequence of steps (load, derive, stop, commit, start) that interleaves with the steps of the
// zone's job, with other zones and with the environment; its snapshot may be stale and its commit may fail.
module Protocol {
  import opened Wrappers
  import opened Versions
  import opened Api
  import opened Fsm
  import opened Merge
  import Store

  type ResourceKey = string

  // One state of the stored object, with the zone that wrote it.
  datatype Entry = Entry(rv: int, status: Status, writer: Option<ZoneId>)

  // `listed` is what was installed when the resources were listed, and `seen` the job registered at that moment:
  // the code does not read it then, but what may go wrong between the two readings depends on it.
  datatype Phase =
    | Idle
    | Loaded(at: nat, listed: map<ResourceKey, Version>, seen: Option<Job>, target: Version, complete: bool,
             health: Code)
    | Decided(at: nat, status: Option<Status>, job: Option<Job>)
    | Cleared(at: nat, status: Option<Status>, job: Option<Job>)
    | Ready(job: Option<Job>)
    | Panic

  // A zone: the live resources of the application with the chart version each is labelled with, the registered
  // job, and where the reconciliation stands.
  datatype Controller = Controller(live: map<ResourceKey, Version>, worker: Option<Job>, phase: Phase)

  // `log` is the history of the stored object; its last entry is the current one.
  datatype System = System(log: seq<Entry>, zones: map<ZoneId, Controller>)

  datatype Step =
    | Initialize(z: ZoneId, at: nat, rv: int)
    | Load(z: ZoneId, at: nat, target: Version, complete: bool, health: Code)
    | DeriveStatus(z: ZoneId, spec: Spec, report: Condition, now: int)
    | StopOther(z: ZoneId)
    | Commit(z: ZoneId, rv: int, succeeds: bool)
    | Start(z: ZoneId)
    | Sync(z: ZoneId, applied: set<ResourceKey>, pruned: set<ResourceKey>)
    | Cleanup(z: ZoneId, deleted: set<ResourceKey>)
    | Report(z: ZoneId, c: Condition, rv: int)
    | Finish(z: ZoneId)
    | Crash(z: ZoneId)
    | SetPlacements(placements: seq<Placement>, rv: int)
    | Touch(rv: int)

  function Last(s: System): Entry
    requires |s.log| > 0
  {
    s.log[|s.log| - 1]
  }

  // The view LoadApplication and GetCurrent give to a derivation from snapshot `s`.
  function ViewOf(s: Status, z: ZoneId, p: Phase, worker: Option<Job>, spec: Spec, report: Condition, now: int): View
    requires p.Loaded?
  {
    var active := Own(s, z).chartVersion;
    View(z, spec, active, if active.None? || !p.target.Equal(active.value) then Some(p.target) else None,
         p.listed.Values, p.complete, p.health,
         if worker.Some? then Some(Running(worker.value.Type(), report)) else None, now)
  }

  predicate ShouldHandle(s: Status, v: View) {
    v.IsDeployed() || s.ownership.state == NoState || HasZone(s, v.zone) || s.ownership.owner == v.zone
    || PlacementsContain(s, v.zone)
  }

  // The conditions a job's report removes.
  function Superseded(t: JobType): seq<ConditionType> {
    match t
    case DeployType => [UndeploymentCondition, LocalCondition]
    case UndeployType => [LocalCondition, DeploymentCondition]
    case OperationType => [DeploymentCondition, UndeploymentCondition]
    case PlacementType => []
  }

  function JobReport(s: Status, z: ZoneId, t: JobType, c: Condition): (bool, Status) {
    if t.PlacementType? then
      (true, AddOrUpdate(s.(ownership := s.ownership.(placements := Some([Placement(z, [])]))), z, c))
    else Store.Reported(s, z, c, Superseded(t))
  }

  // What a stored report of a job leaves of the conditions of other phases: a deployment removes the local and the
  // undeployment condition, an undeployment the local and the deployment one, an operation both of the latter; a
  // placement removes none and sets the placements to the own zone.
  lemma JobReportStored(s: Status, z: ZoneId, t: JobType, c: Condition)
    requires c.zone == z && c.ctype == ReportType(t)
    ensures var (updated, n) := JobReport(s, z, t, c);
      var own, was := Own(n, z).conditions, Own(s, z).conditions;
      && SameOthers(s, n, z) && HasZone(n, z) && Own(n, z).chartVersion == Own(s, z).chartVersion
      && n.ownership == (if t.PlacementType? then s.ownership.(placements := Some([Placement(z, [])])) else s.ownership)
      && (exists d :: d in own && KeyOf(d) == (c.ctype, z)
                      && d.code == c.code && d.reason == c.reason && d.msg == c.msg)
      && (t.DeployType? || t.UndeployType? ==> !HasCondition(own, LocalCondition, z))
      && (t.UndeployType? || t.OperationType? ==> !HasCondition(own, DeploymentCondition, z))
      && (t.DeployType? || t.OperationType? ==> !HasCondition(own, UndeploymentCondition, z))
      && (forall d: Condition :: d.zone != z || d.ctype == OwnershipTransferCondition
                                 || (d.ctype == PlacementCondition && !t.PlacementType?)
                                 || (t.PlacementType? && d.ctype != PlacementCondition)
            ==> (d in own <==> d in was))
      && (updated <==> t.PlacementType? || n != s)
  {
    if t.PlacementType? {
      var b := s.(ownership := s.ownership.(placements := Some([Placement(z, [])])));
      assert Own(b, z) == Own(s, z);
      PutOwn(b, z, Own(b, z).(conditions := Upsert(Own(b, z).conditions, c)));
      PutSameOthers(b, z, Own(b, z).(conditions := Upsert(Own(b, z).conditions, c)));
      UpsertElements(Own(b, z).conditions, c);
    } else {
      Store.ReportStored(s, z, c, Superseded(t));
      assert t.DeployType? ==> UndeploymentCondition in Superseded(t) && LocalCondition in Superseded(t);
      assert t.UndeployType? ==> LocalCondition in Superseded(t) && DeploymentCondition in Superseded(t);
      assert t.OperationType? ==> DeploymentCondition in Superseded(t) && UndeploymentCondition in Superseded(t);
    }
  }

  ghost predicate ReportOf(c: Condition, z: ZoneId, worker: Option<Job>) {
    worker.Some? ==> c.ctype == ReportType(worker.value.Type()) && c.zone == z
  }

  ghost predicate Enabled(s: System, step: Step) {
    && |s.log| > 0
    && match step
       case Initialize(z, at, rv) =>
         && z in s.zones && s.zones[z].phase.Idle? && at < |s.log| && s.log[at].status.ownership.owner == ""
         && rv > Last(s).rv && z != ""
       case Load(z, at, _, _, _) =>
         z in s.zones && s.zones[z].phase.Idle? && at < |s.log| && s.log[at].status.ownership.owner != ""
       case DeriveStatus(z, _, report, _) =>
         && z in s.zones && s.zones[z].phase.Loaded? && s.zones[z].phase.at < |s.log|
         && ReportOf(report, z, s.zones[z].worker)
       case StopOther(z) => z in s.zones && s.zones[z].phase.Decided?
       case Commit(z, rv, _) => z in s.zones && s.zones[z].phase.Cleared? && rv > Last(s).rv
       case Start(z) => z in s.zones && s.zones[z].phase.Ready?
       case Sync(z, _, _) => z in s.zones && s.zones[z].worker.Some? && s.zones[z].worker.value.DeployJob?
       case Cleanup(z, _) => z in s.zones && s.zones[z].worker == Some(UndeployJob)
       case Report(z, c, rv) =>
         z in s.zones && s.zones[z].worker.Some? && ReportOf(c, z, s.zones[z].worker) && rv > Last(s).rv
       case Finish(z) => z in s.zones && s.zones[z].worker.Some?
       case Crash(z) => z in s.zones
       case SetPlacements(placements, rv) => placements != [] && rv > Last(s).rv
       case Touch(rv) => rv > Last(s).rv
  }

  function Written(s: System, z: ZoneId, rv: int, status: Status): seq<Entry>
    requires |s.log| > 0
  {
    s.log + [Entry(rv, BumpZone(status, z, Last(s).rv), Some(z))]
  }

  // A synchronization with pruning: some resources of the version applied, some resources of the application removed.
  function Synced(live: map<ResourceKey, Version>, applied: set<ResourceKey>, pruned: set<ResourceKey>, v: Version):
    map<ResourceKey, Version>
  {
    map k | k in live.Keys - pruned + applied :: if k in applied then v else live[k]
  }

  function WithZone(s: System, z: ZoneId, c: Controller): System {
    s.(zones := s.zones[z := c])
  }

  function WithPlacements(s: Status, placements: seq<Placement>): Status {
    s.(ownership := s.ownership.(placements := Some(placements)))
  }

  ghost function Apply(s: System, step: Step): System
    requires Enabled(s, step)
  {
    var last := Last(s);
    match step
    case Initialize(z, _, rv) =>
      if last.status.ownership.state == NoState then s.(log := Written(s, z, rv, Claimed(last.status, z))) else s
    case Load(z, at, target, complete, health) =>
      WithZone(s, z, s.zones[z].(phase := Loaded(at, s.zones[z].live, s.zones[z].worker, target, complete, health)))
    case DeriveStatus(z, spec, report, now) =>
      var c := s.zones[z];
      WithZone(s, z, c.(phase := Derivation(s.log[c.phase.at].status, z, c.phase, c.worker, spec, report, now)))
    case StopOther(z) =>
      var c := s.zones[z];
      var different := c.phase.job.Some? && c.worker.Some? && c.worker.value.Type() != c.phase.job.value.Type();
      WithZone(s, z, c.(worker := if different then None else c.worker,
                        phase := Cleared(c.phase.at, c.phase.status, c.phase.job)))
    case Commit(z, rv, succeeds) =>
      var c := s.zones[z];
      var t := WithZone(s, z, c.(phase := Ready(c.phase.job)));
      if succeeds && c.phase.status.Some? && Updated(last.status, c.phase.status.value, z) then
        t.(log := Written(s, z, rv, MergeStatus(last.status, c.phase.status.value, z)))
      else t
    case Start(z) =>
      var c := s.zones[z];
      var same := c.phase.job.Some? && c.worker.Some? && c.worker.value.Type() == c.phase.job.value.Type();
      WithZone(s, z, c.(phase := Idle, worker := if c.phase.job.Some? && !same then c.phase.job else c.worker))
    case Sync(z, applied, pruned) =>
      var c := s.zones[z];
      WithZone(s, z, c.(live := Synced(c.live, applied, pruned, c.worker.value.version)))
    case Cleanup(z, deleted) => WithZone(s, z, s.zones[z].(live := s.zones[z].live - deleted))
    case Report(z, c, rv) =>
      var (updated, status) := JobReport(last.status, z, s.zones[z].worker.value.Type(), c);
      if updated then s.(log := Written(s, z, rv, status)) else s
    case Finish(z) => WithZone(s, z, s.zones[z].(worker := None))
    case Crash(z) => WithZone(s, z, s.zones[z].(worker := None, phase := Idle))
    case SetPlacements(placements, rv) =>
      s.(log := s.log + [Entry(rv, WithPlacements(last.status, placements), None)])
    case Touch(rv) => s.(log := s.log + [Entry(rv, last.status, None)])
  }

  // The reconciliation after DeriveNewStatus: nothing to do, a decision, or the panic of two scheduled jobs.
  ghost function Derivation(s: Status, z: ZoneId, p: Phase, worker: Option<Job>, spec: Spec, report: Condition,
                            now: int): Phase
    requires p.Loaded? && ReportOf(report, z, worker)
  {
    var v := ViewOf(s, z, p, worker, spec, report, now);
    if !ShouldHandle(s, v) then Idle
    else match Derive(s, v)
      case Panicked => Panic
      case Derived(status, updated, job) => Decided(p.at, if updated then Some(status) else None, job)
  }

  ghost predicate Run(s: System, steps: seq<Step>, t: System)
    decreases |steps|
  {
    if steps == [] then t == s else Enabled(s, steps[0]) && Run(Apply(s, steps[0]), steps[1..], t)
  }

  // A fresh application: an empty status, nothing installed, no job anywhere.
  ghost predicate Initial(s: System) {
    && |s.log| == 1 && s.log[0].rv >= 0 && s.log[0].status == EMPTY_STATUS
    && forall z :: z in s.zones ==> s.zones[z] == Controller(map[], None, Idle)
  }

  // ---- the invariant of the history ----

  ghost predicate StatusOk(e: Entry) {
    && WellFormedStatus(e.status)
    && (e.status.ownership.owner == "" <==> e.status.ownership.state == NoState)
    && e.status.ownership.epoch == (if e.status.ownership.state == NoState then 0 else 1)
    && (forall z :: HasZone(e.status, z) ==> ZoneOk(e, z))
  }

  // A zone's version never runs ahead of the object's, and a zone with a chart version has been placed.
  ghost predicate ZoneOk(e: Entry, z: ZoneId) {
    && Own(e.status, z).zoneVersion <= e.rv
    && (Own(e.status, z).chartVersion.Some? ==> e.status.ownership.placements.Some?)
  }

  // What ownership keeps from an earlier to a later status.
  ghost predicate OwnershipKept(a: Ownership, b: Ownership) {
    && (a.owner != "" ==> b.owner == a.owner)
    && a.epoch <= b.epoch
    && (a.placements.Some? ==> b.placements.Some?)
  }

  // A write changes only the writer's own entry; the environment's writes change none.
  ghost predicate OneWriter(a: Entry, b: Entry) {
    match b.writer
    case Some(z) => SameOthers(a.status, b.status, z)
    case None => b.status.zones == a.status.zones
  }

  ghost predicate VersionRaised(a: Entry, b: Entry) {
    b.writer.Some? ==>
      var z := b.writer.value;
      HasZone(a.status, z) && HasZone(b.status, z) ==> Own(a.status, z).zoneVersion < Own(b.status, z).zoneVersion
  }

  ghost predicate LogOk(log: seq<Entry>) {
    && |log| > 0 && log[0].rv >= 0
    && (forall i :: 0 <= i < |log| ==> StatusOk(log[i]))
    && (forall i, j :: 0 <= i < j < |log| ==>
          log[i].rv < log[j].rv && OwnershipKept(log[i].status.ownership, log[j].status.ownership)
          && VersionRaised(log[i], log[j]))
    && (forall i :: 0 < i < |log| ==> OneWriter(log[i - 1], log[i]))
  }

  // A status derived by zone `z` from snapshot `base`.
  ghost predicate DerivedOk(base: Status, n: Status, z: ZoneId) {
    && WellFormedStatus(n)
    && n.ownership == base.ownership.(state := n.ownership.state) && n.ownership.state != NoState
    && SameOthers(base, n, z)
    && (HasZone(n, z) && Own(n, z).chartVersion.Some? ==> n.ownership.placements.Some?)
  }

  ghost predicate PhaseOk(p: Phase, z: ZoneId, log: seq<Entry>) {
    match p
    case Loaded(at, _, _, _, _, _) => at < |log| && log[at].status.ownership.owner != ""
    case Decided(at, n, _) => SnapshotOk(at, n, z, log)
    case Cleared(at, n, _) => SnapshotOk(at, n, z, log)
    case Panic => false
    case _ => true
  }

  ghost predicate SnapshotOk(at: nat, n: Option<Status>, z: ZoneId, log: seq<Entry>) {
    && at < |log| && log[at].status.ownership.owner != ""
    && (n.Some? ==> DerivedOk(log[at].status, n.value, z))
  }

  ghost predicate Inv(s: System) {
    LogOk(s.log) && forall z :: z in s.zones ==> PhaseOk(s.zones[z].phase, z, s.log)
  }

  // ---- writing one more entry ----

  // What a zone's callback must leave, before the version bump.
  ghost predicate EditOk(last: Entry, t: Status, z: ZoneId) {
    && WellFormedStatus(t) && SameOthers(last.status, t, z)
    && OwnershipKept(last.status.ownership, t.ownership)
    && (t.ownership.owner == "" <==> t.ownership.state == NoState)
    && t.ownership.epoch == (if t.ownership.state == NoState then 0 else 1)
    && (HasZone(t, z) ==>
          && Own(t, z).zoneVersion <= last.rv
          && (Own(t, z).chartVersion.Some? ==> t.ownership.placements.Some?))
  }

  lemma BumpFrame(t: Status, z: ZoneId, rv: int)
    requires WellFormedStatus(t) && (HasZone(t, z) ==> Own(t, z).zoneVersion <= rv)
    ensures var b := BumpZone(t, z, rv);
      && WellFormedStatus(b) && SameOthers(t, b, z) && b.ownership == t.ownership && HasZone(b, z) == HasZone(t, z)
      && (HasZone(t, z) ==> Own(b, z) == Own(t, z).(zoneVersion := rv + 1))
  {
    if HasZone(t, z) {
      var own := Own(t, z).(zoneVersion := rv + 1);
      PutOwn(t, z, own);
      PutSameOthers(t, z, own);
      OwnWellFormed(t, z);
      PutRefines(t, z, own);
    }
  }

  lemma ZoneVersionsBounded(log: seq<Entry>, e: Entry, i: nat)
    requires LogOk(log) && i < |log|
    requires e.writer.Some?
    requires HasZone(e.status, e.writer.value) ==> Own(e.status, e.writer.value).zoneVersion > log[|log| - 1].rv
    ensures VersionRaised(log[i], e)
  {
    var z := e.writer.value;
    assert StatusOk(log[i]);
    if HasZone(log[i].status, z) { assert ZoneOk(log[i], z); }
  }

  lemma AppendOk(log: seq<Entry>, e: Entry)
    requires LogOk(log) && e.rv > log[|log| - 1].rv && StatusOk(e)
    requires OwnershipKept(log[|log| - 1].status.ownership, e.status.ownership) && OneWriter(log[|log| - 1], e)
    requires e.writer.Some? && HasZone(e.status, e.writer.value) ==>
      Own(e.status, e.writer.value).zoneVersion > log[|log| - 1].rv
    ensures LogOk(log + [e])
  {
    var all, n := log + [e], |log|;
    forall i | 0 <= i < n
      ensures log[i].rv < e.rv && OwnershipKept(log[i].status.ownership, e.status.ownership) && VersionRaised(log[i], e)
    {
      if e.writer.Some? { ZoneVersionsBounded(log, e, i); }
      if i < n - 1 { assert OwnershipKept(log[i].status.ownership, log[n - 1].status.ownership); }
    }
    forall i, j | 0 <= i < j < |all|
      ensures all[i].rv < all[j].rv && OwnershipKept(all[i].status.ownership, all[j].status.ownership)
      ensures VersionRaised(all[i], all[j])
    {
      if j < n { assert all[i] == log[i] && all[j] == log[j]; }
    }
    forall i | 0 < i < |all| ensures OneWriter(all[i - 1], all[i]) {
      if i < n { assert all[i] == log[i]; }
    }
  }

  lemma WrittenOk(s: System, z: ZoneId, rv: int, t: Status)
    requires LogOk(s.log) && rv > Last(s).rv && EditOk(Last(s), t, z)
    ensures LogOk(Written(s, z, rv, t))
  {
    var last := Last(s);
    BumpFrame(t, z, last.rv);
    var e := Entry(rv, BumpZone(t, z, last.rv), Some(z));
    forall y | HasZone(e.status, y) ensures ZoneOk(e, y) {
      if y != z {
        SameOthersOwn(e.status, t, z, y);
        SameOthersOwn(last.status, t, z, y);
        assert ZoneOk(last, y);
      }
    }
    AppendOk(s.log, e);
  }

  lemma UnzonedOk(s: System, e: Entry)
    requires LogOk(s.log) && e.writer.None? && e.rv > Last(s).rv && e.status.zones == Last(s).status.zones
    requires var o, p := Last(s).status.ownership, e.status.ownership.placements;
      e.status.ownership == o.(placements := p) && (o.placements.Some? ==> p.Some?)
    ensures LogOk(s.log + [e])
  {
    var last := Last(s);
    forall y | HasZone(e.status, y) ensures ZoneOk(e, y) {
      assert HasZone(last.status, y) && Own(e.status, y) == Own(last.status, y);
      assert ZoneOk(last, y);
    }
    AppendOk(s.log, e);
  }

  // ---- the callbacks ----

  lemma ClaimOk(last: Entry, z: ZoneId)
    requires StatusOk(last) && last.status.ownership.state == NoState && z != ""
    ensures EditOk(last, Claimed(last.status, z), z)
  {
    var t := Claimed(last.status, z);
    assert Own(t, z) == Own(last.status, z);
    if HasZone(t, z) { assert HasZone(last.status, z) && ZoneOk(last, z); }
  }

  lemma MergeOk(log: seq<Entry>, at: nat, n: Status, z: ZoneId)
    requires LogOk(log) && SnapshotOk(at, Some(n), z, log)
    ensures EditOk(log[|log| - 1], MergeStatus(log[|log| - 1].status, n, z), z)
  {
    var last := log[|log| - 1];
    var m := MergeStatus(last.status, n, z);
    MergeOwn(last.status, n, z);
    MergeWellFormed(last.status, n, z);
    assert StatusOk(last) && StatusOk(log[at]);
    if at < |log| - 1 { assert OwnershipKept(log[at].status.ownership, last.status.ownership); }
    assert last.status.ownership.owner == n.ownership.owner != "";
    if HasZone(m, z) && HasZone(last.status, z) { assert ZoneOk(last, z); }
    RvPositive(log);
  }

  lemma RvPositive(log: seq<Entry>)
    requires LogOk(log)
    ensures log[|log| - 1].rv >= 0
  {
    if |log| > 1 { assert log[0].rv < log[|log| - 1].rv; }
  }

  // An edit of the zone's own conditions.
  ghost predicate ConditionEdit(s: Status, t: Status, z: ZoneId) {
    && WellFormedStatus(t) && SameOthers(s, t, z) && t.ownership == s.ownership
    && Own(t, z).zoneVersion == Own(s, z).zoneVersion && Own(t, z).chartVersion == Own(s, z).chartVersion
  }

  lemma UpsertEdit(s: Status, z: ZoneId, c: Condition)
    requires WellFormedStatus(s) && c.zone == z
    ensures ConditionEdit(s, AddOrUpdate(s, z, c), z)
  {
    OwnWellFormed(s, z);
    var own := Own(s, z).(conditions := Upsert(Own(s, z).conditions, c));
    UpsertRefines(Own(s, z).conditions, c);
    PutOwn(s, z, own);
    PutSameOthers(s, z, own);
    PutRefines(s, z, own);
  }

  lemma DropEdit(s: Status, z: ZoneId, ctype: ConditionType)
    requires WellFormedStatus(s)
    ensures ConditionEdit(s, WithoutCondition(s, z, ctype, z), z)
  {
    if HasZone(s, z) {
      OwnWellFormed(s, z);
      DropElements(Own(s, z).conditions, ctype, z);
      var own := Own(s, z).(conditions := Drop(Own(s, z).conditions, ctype, z));
      forall i | 0 <= i < |own.conditions| ensures own.conditions[i].zone == z {
        assert own.conditions[i] in Own(s, z).conditions;
      }
      PutOwn(s, z, own);
      PutSameOthers(s, z, own);
      PutRefines(s, z, own);
    }
  }

  lemma {:induction false} DropAllEdit(s: Status, z: ZoneId, types: seq<ConditionType>)
    requires WellFormedStatus(s)
    ensures ConditionEdit(s, Store.DropAll(s, z, types), z)
    decreases |types|
  {
    if types != [] {
      DropEdit(s, z, types[0]);
      DropAllEdit(WithoutCondition(s, z, types[0], z), z, types[1..]);
    }
  }

  lemma ReportOk(last: Entry, z: ZoneId, t: JobType, c: Condition)
    requires StatusOk(last) && last.rv >= 0 && c.zone == z
    ensures EditOk(last, JobReport(last.status, z, t, c).1, z)
  {
    var s := last.status;
    var b := if t.PlacementType? then s.(ownership := s.ownership.(placements := Some([Placement(z, [])]))) else s;
    assert Own(b, z) == Own(s, z);
    UpsertEdit(b, z, c);
    var u := AddOrUpdate(b, z, c);
    if !t.PlacementType? { DropAllEdit(u, z, Superseded(t)); }
    if HasZone(s, z) { assert ZoneOk(last, z); }
  }

  // ---- the steps ----

  lemma PhaseStays(p: Phase, z: ZoneId, log: seq<Entry>, log': seq<Entry>)
    requires PhaseOk(p, z, log) && log <= log'
    ensures PhaseOk(p, z, log')
  {}

  lemma DerivationOk(log: seq<Entry>, z: ZoneId, p: Phase, worker: Option<Job>, spec: Spec, report: Condition, now: int)
    requires LogOk(log) && p.Loaded? && PhaseOk(p, z, log) && ReportOf(report, z, worker)
    ensures PhaseOk(Derivation(log[p.at].status, z, p, worker, spec, report, now), z, log)
  {
    var s := log[p.at].status;
    var v := ViewOf(s, z, p, worker, spec, report, now);
    assert StatusOk(log[p.at]);
    if HasZone(s, z) { assert ZoneOk(log[p.at], z); }
    OwnedDerivationOk(s, v);
  }

  // With the versions of unplaced zones unset, a derivation does not panic and keeps it so.
  lemma OwnedDerivationOk(s: Status, v: View)
    requires v.Valid() && WellFormedStatus(s) && s.ownership.owner != "" && s.ownership.state != NoState
    requires HasZone(s, v.zone) && Own(s, v.zone).chartVersion.Some? ==> s.ownership.placements.Some?
    requires v.active == Own(s, v.zone).chartVersion
    ensures Derive(s, v).Derived? && DerivedOk(s, Derive(s, v).status, v.zone)
  {
    PanicsExactlyWhen(s, v);
    DeriveFrame(s, v);
    DeriveWellFormed(s, v);
    NotedFrame(s, v);
    LocalJobs(Noted(s, v), v);
    assert Claimed(s, v.zone) == s;
    assert PlacementsContain(Noted(s, v), v.zone) ==> s.ownership.placements.Some?;
  }

  lemma InitializeKeepsLog(s: System, step: Step)
    requires Inv(s) && Enabled(s, step) && step.Initialize?
    ensures LogOk(Apply(s, step).log) && s.log <= Apply(s, step).log
  {
    assert StatusOk(Last(s));
    if Last(s).status.ownership.state == NoState {
      ClaimOk(Last(s), step.z);
      WrittenOk(s, step.z, step.rv, Claimed(Last(s).status, step.z));
    }
  }

  lemma CommitKeepsLog(s: System, step: Step)
    requires Inv(s) && Enabled(s, step) && step.Commit?
    ensures LogOk(Apply(s, step).log) && s.log <= Apply(s, step).log
  {
    var p := s.zones[step.z].phase;
    if step.succeeds && p.status.Some? {
      MergeOk(s.log, p.at, p.status.value, step.z);
      WrittenOk(s, step.z, step.rv, MergeStatus(Last(s).status, p.status.value, step.z));
    }
  }

  lemma ReportKeepsLog(s: System, step: Step)
    requires Inv(s) && Enabled(s, step) && step.Report?
    ensures LogOk(Apply(s, step).log) && s.log <= Apply(s, step).log
  {
    var kind := s.zones[step.z].worker.value.Type();
    RvPositive(s.log);
    ReportOk(Last(s), step.z, kind, step.c);
    WrittenOk(s, step.z, step.rv, JobReport(Last(s).status, step.z, kind, step.c).1);
  }

  lemma LogStays(s: System, step: Step)
    requires Inv(s) && Enabled(s, step)
    ensures LogOk(Apply(s, step).log) && s.log <= Apply(s, step).log
  {
    match step {
      case Initialize(_, _, _) => InitializeKeepsLog(s, step);
      case Commit(_, _, _) => CommitKeepsLog(s, step);
      case Report(_, _, _) => ReportKeepsLog(s, step);
      case SetPlacements(placements, rv) =>
        UnzonedOk(s, Entry(rv, WithPlacements(Last(s).status, placements), None));
      case Touch(rv) => UnzonedOk(s, Entry(rv, Last(s).status, None));
      case _ =>
    }
  }

  // A step leaves every phase as it was, except the acting zone's own.
  lemma PhasesStayOk(s: System, step: Step)
    requires Inv(s) && Enabled(s, step) && s.log <= Apply(s, step).log
    ensures var t := Apply(s, step); forall y :: y in t.zones ==> PhaseOk(t.zones[y].phase, y, t.log)
  {
    if step.DeriveStatus? {
      DerivePhaseOk(s, step);
    } else {
      var t := Apply(s, step);
      forall y | y in t.zones ensures PhaseOk(t.zones[y].phase, y, t.log) {
        assert y in s.zones && PhaseOk(s.zones[y].phase, y, s.log);
        PhaseStays(s.zones[y].phase, y, s.log, t.log);
      }
    }
  }

  lemma DeriveApplies(s: System, step: Step)
    requires Enabled(s, step) && step.DeriveStatus?
    ensures var c := s.zones[step.z];
      Apply(s, step) == WithZone(s, step.z, c.(phase :=
        Derivation(s.log[c.phase.at].status, step.z, c.phase, c.worker, step.spec, step.report, step.now)))
  {}

  lemma DerivePhaseOk(s: System, step: Step)
    requires Inv(s) && Enabled(s, step) && step.DeriveStatus?
    ensures var t := Apply(s, step); forall y :: y in t.zones ==> PhaseOk(t.zones[y].phase, y, t.log)
  {
    DeriveApplies(s, step);
    DerivationOk(s.log, step.z, s.zones[step.z].phase, s.zones[step.z].worker, step.spec, step.report, step.now);
  }

  lemma StepKeepsInv(s: System, step: Step)
    requires Inv(s) && Enabled(s, step)
    ensures Inv(Apply(s, step)) && s.log <= Apply(s, step).log
  {
    LogStays(s, step);
    PhasesStayOk(s, step);
  }

  lemma {:induction false} RunKeepsInv(s: System, steps: seq<Step>, t: System)
    requires Inv(s) && Run(s, steps, t)
    ensures Inv(t) && s.log <= t.log
    decreases |steps|
  {
    if steps != [] {
      StepKeepsInv(s, steps[0]);
      RunKeepsInv(Apply(s, steps[0]), steps[1..], t);
    }
  }

  lemma InitialInv(s: System)
    requires Initial(s)
    ensures Inv(s)
  {
    assert StatusOk(s.log[0]);
  }

  // ---- what every run keeps ----

  // Ownership: the owner is empty exactly while there is no state, at epoch 0, which is 1 from then on; once set the
  // owner never changes, and placements never return to nil. For any number of zones, stale snapshots and failed
  // commits.
  lemma OwnershipIsStable(s: System, steps: seq<Step>, t: System)
    requires Initial(s) && Run(s, steps, t)
    ensures forall i :: 0 <= i < |t.log| ==>
      var o := t.log[i].status.ownership;
      (o.owner == "" <==> o.state == NoState) && o.epoch == if o.owner == "" then 0 else 1
    ensures forall i, j :: 0 <= i < j < |t.log| ==>
      OwnershipKept(t.log[i].status.ownership, t.log[j].status.ownership)
  {
    InitialInv(s);
    RunKeepsInv(s, steps, t);
    forall i | 0 <= i < |t.log|
      ensures var o := t.log[i].status.ownership;
        (o.owner == "" <==> o.state == NoState) && o.epoch == if o.owner == "" then 0 else 1
    {
      assert StatusOk(t.log[i]);
    }
  }

  // Single writer: whatever is stored, only a zone's own writes change what is found for that zone, and the order
  // of the others' entries stays.
  lemma OnlyOwnWritesChangeAZone(s: System, steps: seq<Step>, t: System, i: nat, z: ZoneId)
    requires Initial(s) && Run(s, steps, t) && i + 1 < |t.log|
    ensures var a, b := t.log[i], t.log[i + 1];
      && (b.writer != Some(z) ==>
            HasZone(a.status, z) == HasZone(b.status, z) && Own(a.status, z) == Own(b.status, z))
      && (b.writer.Some? ==> SameOthers(a.status, b.status, b.writer.value))
      && (b.writer.None? ==> a.status.zones == b.status.zones)
  {
    InitialInv(s);
    RunKeepsInv(s, steps, t);
    var a, b := t.log[i], t.log[i + 1];
    assert OneWriter(t.log[i + 1 - 1], t.log[i + 1]);
    if b.writer.Some? && b.writer != Some(z) { SameOthersOwn(a.status, b.status, b.writer.value, z); }
  }

  // Zone versions are never reused: a write that leaves the writer's entry present gives it a version above every
  // earlier one, even if the entry was dropped and created again in between.
  lemma ZoneVersionsNeverReused(s: System, steps: seq<Step>, t: System, i: nat, j: nat, z: ZoneId)
    requires Initial(s) && Run(s, steps, t) && i < j < |t.log|
    requires t.log[j].writer == Some(z) && HasZone(t.log[i].status, z) && HasZone(t.log[j].status, z)
    ensures Own(t.log[i].status, z).zoneVersion < Own(t.log[j].status, z).zoneVersion <= t.log[j].rv
  {
    InitialInv(s);
    RunKeepsInv(s, steps, t);
    assert VersionRaised(t.log[i], t.log[j]);
    assert StatusOk(t.log[j]) && ZoneOk(t.log[j], z);
  }

  // The first reconciliation claims an unclaimed application for its zone, and no other one.
  lemma InitializeClaims(s: System, step: Step)
    requires Enabled(s, step) && step.Initialize?
    ensures var was, now := Last(s).status, Last(Apply(s, step)).status;
      now == if was.ownership.state != NoState then was
             else BumpZone(was.(ownership := Ownership(1, New, step.z, was.ownership.placements)), step.z, Last(s).rv)
  {}

  // A commit that goes through leaves the derived state stored, whether or not there was anything to write.
  lemma CommitStoresState(s: System, step: Step)
    requires Enabled(s, step) && step.Commit? && step.succeeds && s.zones[step.z].phase.status.Some?
    ensures var n, now := s.zones[step.z].phase.status.value, Last(Apply(s, step)).status;
      n.ownership.state != UnknownState ==> now.ownership.state == n.ownership.state
  {
    var n, c := s.zones[step.z].phase.status.value, Last(s).status;
    MergeTakesOver(c, n, step.z);
    UpdatedMisses(c, n, step.z);
    var m := MergeStatus(c, n, step.z);
    assert m.ownership == MergeOwnership(c.ownership, n.ownership);
    if Updated(c, n, step.z) { BumpOwnership(m, step.z, Last(s).rv); }
  }

  lemma BumpOwnership(t: Status, z: ZoneId, rv: int)
    ensures BumpZone(t, z, rv).ownership == t.ownership
  {}

  // The lists stay maps in everything ever stored.
  lemma StoredListsAreMaps(s: System, steps: seq<Step>, t: System, i: nat)
    requires Initial(s) && Run(s, steps, t) && i < |t.log|
    ensures WellFormedStatus(t.log[i].status)
  {
    InitialInv(s);
    RunKeepsInv(s, steps, t);
    assert StatusOk(t.log[i]);
  }

  // As long as nobody clears the placements, no reconciliation ever panics, under either strategy.
  lemma NoPanic(s: System, steps: seq<Step>, t: System, z: ZoneId)
    requires Initial(s) && Run(s, steps, t) && z in t.zones
    ensures !t.zones[z].phase.Panic?
  {
    InitialInv(s);
    RunKeepsInv(s, steps, t);
    assert PhaseOk(t.zones[z].phase, z, t.log);
  }

  // ---- one chart version at a time ----

  ghost predicate Only(live: map<ResourceKey, Version>, v: Version) {
    forall k :: k in live ==> live[k] == v
  }

  ghost predicate OneVersion(live: map<ResourceKey, Version>) {
    forall j, k :: j in live && k in live ==> live[j] == live[k]
  }

  function PendingJob(p: Phase): Option<Job> {
    match p
    case Decided(_, _, job) => job
    case Cleared(_, _, job) => job
    case Ready(job) => job
    case _ => None
  }

  predicate IsDeploy(job: Option<Job>) { job.Some? && job.value.DeployJob? }

  // A running deployment owns everything installed; so will one about to start, and no other is running then.
  ghost predicate VersionOk(c: Controller) {
    && OneVersion(c.live)
    && (IsDeploy(c.worker) ==> Only(c.live, c.worker.value.version))
    && (var job := PendingJob(c.phase); IsDeploy(job) ==> Only(c.live, job.value.version) && !IsDeploy(c.worker))
    && (c.phase.Loaded? ==> ListingOk(c.live, c.worker, c.phase))
  }

  // A deployment seen by the listing owns everything installed since. If there was none, none runs, and what is
  // installed was listed.
  ghost predicate ListingOk(live: map<ResourceKey, Version>, worker: Option<Job>, p: Phase)
    requires p.Loaded?
  {
    if IsDeploy(p.seen) then Only(live, p.seen.value.version) && (IsDeploy(worker) ==> worker == p.seen)
    else !IsDeploy(worker) && live.Values <= p.listed.Values
  }

  ghost predicate VersionInv(s: System) { forall z :: z in s.zones ==> VersionOk(s.zones[z]) }

  ghost function SnapshotOf(s: System, step: Step): Status
    requires Enabled(s, step) && step.DeriveStatus?
  {
    s.log[s.zones[step.z].phase.at].status
  }

  ghost function ViewAt(s: System, step: Step): View
    requires Enabled(s, step) && step.DeriveStatus?
  {
    var c := s.zones[step.z];
    ViewOf(SnapshotOf(s, step), step.z, c.phase, c.worker, step.spec, step.report, step.now)
  }

  // Snapshot, listing and registry ask for a deployment although one of another version, seen by the listing, has
  // left resources.
  ghost predicate Unsafe(s: System, step: Step)
    requires Enabled(s, step)
  {
    step.DeriveStatus? &&
      var c, v := s.zones[step.z], ViewAt(s, step);
      && MayDeploy(SnapshotOf(s, step), v)
      && IsDeploy(c.phase.seen) && c.phase.seen.value.version != v.Target() && c.live != map[]
  }

  // A deployment that runs when the resources are listed still runs when the job registry is read.
  ghost predicate Quiet(s: System, step: Step)
    requires Enabled(s, step)
  {
    step.DeriveStatus? ==>
      var c := s.zones[step.z];
      IsDeploy(c.phase.seen) ==> c.worker == c.phase.seen
  }

  ghost predicate SafeRun(s: System, steps: seq<Step>, t: System)
    decreases |steps|
  {
    if steps == [] then t == s
    else Enabled(s, steps[0]) && !Unsafe(s, steps[0]) && SafeRun(Apply(s, steps[0]), steps[1..], t)
  }

  ghost predicate QuietRun(s: System, steps: seq<Step>, t: System)
    decreases |steps|
  {
    if steps == [] then t == s
    else Enabled(s, steps[0]) && Quiet(s, steps[0]) && QuietRun(Apply(s, steps[0]), steps[1..], t)
  }

  // What a derivation decides to start.
  ghost function Requested(s: System, step: Step): Option<Job>
    requires Enabled(s, step) && step.DeriveStatus?
  {
    var c := s.zones[step.z];
    PendingJob(Derivation(SnapshotOf(s, step), step.z, c.phase, c.worker, step.spec, step.report, step.now))
  }

  // A deployment is requested exactly if snapshot, listing and registry ask for one: then none runs, and nothing of
  // another version was listed.
  lemma DeployRequestListed(s: System, step: Step)
    requires Enabled(s, step) && step.DeriveStatus?
    ensures var c, v := s.zones[step.z], ViewAt(s, step);
      && (IsDeploy(Requested(s, step)) <==> MayDeploy(SnapshotOf(s, step), v))
      && (IsDeploy(Requested(s, step)) ==>
            && Requested(s, step) == Some(DeployJob(v.Target()))
            && c.phase.listed.Values <= {v.Target()} && !IsDeploy(c.worker))
  {
    DeployRequest(SnapshotOf(s, step), ViewAt(s, step));
  }

  // Deciding on `asked` keeps the versions apart exactly unless a deployment of another version was seen and
  // something is installed.
  lemma RequestOk(c: Controller, asked: Version)
    requires VersionOk(c) && c.phase.Loaded? && c.phase.listed.Values <= {asked} && !IsDeploy(c.worker)
    ensures Only(c.live, asked) <==> !(IsDeploy(c.phase.seen) && c.phase.seen.value.version != asked && c.live != map[])
  {
    assert ListingOk(c.live, c.worker, c.phase);
    forall k | k in c.live && !IsDeploy(c.phase.seen) ensures c.live[k] == asked {
      assert c.live[k] in c.live.Values;
    }
  }

  lemma DeriveKeepsVersions(s: System, step: Step)
    requires VersionInv(s) && Enabled(s, step) && step.DeriveStatus?
    ensures VersionInv(Apply(s, step)) <==> !Unsafe(s, step)
  {
    var c, job := s.zones[step.z], Requested(s, step);
    var d := Derivation(s.log[c.phase.at].status, step.z, c.phase, c.worker, step.spec, step.report, step.now);
    DeriveApplies(s, step);
    DeployRequestListed(s, step);
    assert VersionOk(c);
    if IsDeploy(job) { RequestOk(c, job.value.version); }
    DerivedVersionOk(c, d, job);
    assert Apply(s, step).zones[step.z] == c.(phase := d);
    assert VersionInv(Apply(s, step)) <==> VersionOk(c.(phase := d));
  }

  lemma DerivedVersionOk(c: Controller, d: Phase, job: Option<Job>)
    requires VersionOk(c) && !d.Loaded? && PendingJob(d) == job && (IsDeploy(job) ==> !IsDeploy(c.worker))
    ensures VersionOk(c.(phase := d)) <==> (IsDeploy(job) ==> Only(c.live, job.value.version))
  {}

  lemma OtherStepKeepsVersions(s: System, step: Step)
    requires VersionInv(s) && Enabled(s, step) && !step.DeriveStatus?
    ensures VersionInv(Apply(s, step))
  {
    forall y | y in Apply(s, step).zones ensures VersionOk(Apply(s, step).zones[y]) {
      assert y in s.zones && VersionOk(s.zones[y]);
    }
  }

  // The exact condition: a step breaks the invariant if and only if it is an unsafe request.
  lemma StepKeepsVersionsExactlyWhen(s: System, step: Step)
    requires VersionInv(s) && Enabled(s, step)
    ensures VersionInv(Apply(s, step)) <==> !Unsafe(s, step)
  {
    if step.DeriveStatus? { DeriveKeepsVersions(s, step); } else { OtherStepKeepsVersions(s, step); }
  }

  // Between the listing and the look into the registry the seen deployment must have ended.
  lemma QuietIsSafe(s: System, step: Step)
    requires Enabled(s, step) && Quiet(s, step)
    ensures !Unsafe(s, step)
  {
    if step.DeriveStatus? { DeployRequestListed(s, step); }
  }

  lemma {:induction false} SafeRunKeepsVersions(s: System, steps: seq<Step>, t: System)
    requires VersionInv(s) && SafeRun(s, steps, t)
    ensures VersionInv(t)
    decreases |steps|
  {
    if steps != [] {
      StepKeepsVersionsExactlyWhen(s, steps[0]);
      SafeRunKeepsVersions(Apply(s, steps[0]), steps[1..], t);
    }
  }

  lemma {:induction false} QuietRunIsSafe(s: System, steps: seq<Step>, t: System)
    requires QuietRun(s, steps, t)
    ensures SafeRun(s, steps, t)
    decreases |steps|
  {
    if steps != [] {
      QuietIsSafe(s, steps[0]);
      QuietRunIsSafe(Apply(s, steps[0]), steps[1..], t);
    }
  }

  lemma InitialVersions(s: System)
    requires Initial(s)
    ensures VersionInv(s)
  {}

  // At most one chart version is ever installed in a zone, and a running deployment of a version means that
  // nothing of any other version is there: over every run in which no deployment ends between a listing and its
  // look into the registry, with crashes, failed commits, stale snapshots of the status, and placements and target
  // versions changing at any time.
  lemma AtMostOneVersion(s: System, steps: seq<Step>, t: System, z: ZoneId)
    requires Initial(s) && QuietRun(s, steps, t) && z in t.zones
    ensures OneVersion(t.zones[z].live)
    ensures IsDeploy(t.zones[z].worker) ==> Only(t.zones[z].live, t.zones[z].worker.value.version)
  {
    InitialVersions(s);
    QuietRunIsSafe(s, steps, t);
    SafeRunKeepsVersions(s, steps, t);
    assert VersionOk(t.zones[z]);
  }

  // ---- a listing that is no longer current ----

  predicate CrashFree(steps: seq<Step>) { forall i :: 0 <= i < |steps| ==> !steps[i].Crash? }

  // Some run without a crash leads from `s` to `t`.
  ghost predicate Reaches(s: System, t: System) { exists steps :: CrashFree(steps) && Run(s, steps, t) }

  lemma ReachesByStep(s: System, step: Step, t: System)
    requires Enabled(s, step) && !step.Crash? && Reaches(Apply(s, step), t)
    ensures Reaches(s, t)
  {
    var rest :| CrashFree(rest) && Run(Apply(s, step), rest, t);
    assert ([step] + rest)[1..] == rest;
    assert CrashFree([step] + rest) && Run(s, [step] + rest, t);
  }

  // A step of zone `z` before a run.
  lemma Onward(s: System, z: ZoneId, c: Controller, step: Step, c': Controller, rest: seq<Step>, t: System)
    requires Enabled(WithZone(s, z, c), step) && Apply(WithZone(s, z, c), step) == WithZone(WithZone(s, z, c), z, c')
    requires Run(WithZone(s, z, c'), rest, t)
    ensures Run(WithZone(s, z, c), [step] + rest, t)
  {
    assert WithZone(WithZone(s, z, c), z, c') == WithZone(s, z, c');
    assert ([step] + rest)[1..] == rest;
  }

  // Stop the other job, fail to commit, start, install one resource.
  function Installation(z: ZoneId, rv: int, key: ResourceKey): seq<Step> {
    [StopOther(z), Commit(z, rv, false), Start(z), Sync(z, {key}, {})]
  }

  lemma DecidedInstalls(s: System, z: ZoneId, c: Controller, at: nat, n: Option<Status>, v: Version, rv: int,
                        key: ResourceKey)
    requires |s.log| > 0 && rv > Last(s).rv
    requires c.phase == Decided(at, n, Some(DeployJob(v))) && !IsDeploy(c.worker)
    ensures Run(WithZone(s, z, c), Installation(z, rv, key),
                WithZone(s, z, Controller(c.live[key := v], Some(DeployJob(v)), Idle)))
  {
    var job := Some(DeployJob(v));
    var c1 := Controller(c.live, None, Cleared(at, n, job));
    var c2 := Controller(c.live, None, Ready(job));
    StartInstalls(s, z, c.live, v, key);
    var last, t := [Start(z), Sync(z, {key}, {})], WithZone(s, z, Controller(c.live[key := v], job, Idle));
    Onward(s, z, c1, Commit(z, rv, false), c2, last, t);
    Onward(s, z, c, StopOther(z), c1, [Commit(z, rv, false)] + last, t);
    assert Installation(z, rv, key) == [StopOther(z)] + ([Commit(z, rv, false)] + last);
  }

  lemma StartInstalls(s: System, z: ZoneId, live: map<ResourceKey, Version>, v: Version, key: ResourceKey)
    requires |s.log| > 0
    ensures Run(WithZone(s, z, Controller(live, None, Ready(Some(DeployJob(v))))), [Start(z), Sync(z, {key}, {})],
                WithZone(s, z, Controller(live[key := v], Some(DeployJob(v)), Idle)))
  {
    var job := Some(DeployJob(v));
    var t := WithZone(s, z, Controller(live[key := v], job, Idle));
    assert Run(t, [], t);
    assert Synced(live, {key}, {}, v) == live[key := v];
    Onward(s, z, Controller(live, job, Idle), Sync(z, {key}, {}), Controller(live[key := v], job, Idle), [], t);
    assert [Sync(z, {key}, {})] == [Sync(z, {key}, {})] + [];
    Onward(s, z, Controller(live, None, Ready(job)), Start(z), Controller(live, job, Idle), [Sync(z, {key}, {})], t);
    assert [Start(z), Sync(z, {key}, {})] == [Start(z)] + [Sync(z, {key}, {})];
  }

  // The other side of the condition: after any unsafe request four further steps of the zone leave two versions.
  lemma UnsafeRequestCanMix(s: System, step: Step)
    requires VersionInv(s) && Enabled(s, step) && Unsafe(s, step)
    ensures exists rv, key, t ::
      Run(Apply(s, step), Installation(step.z, rv, key), t) && step.z in t.zones && !OneVersion(t.zones[step.z].live)
  {
    var z, c, v := step.z, s.zones[step.z], ViewAt(s, step).Target();
    DeployRequestListed(s, step);
    DeriveApplies(s, step);
    assert VersionOk(c) && ListingOk(c.live, c.worker, c.phase);
    var d := Derivation(SnapshotOf(s, step), z, c.phase, c.worker, step.spec, step.report, step.now);
    DecidedMixes(s, z, c.(phase := d), d.at, d.status, c.phase.seen.value.version, v);
  }

  lemma DecidedMixes(s: System, z: ZoneId, c: Controller, at: nat, n: Option<Status>, was: Version, v: Version)
    requires |s.log| > 0 && c.phase == Decided(at, n, Some(DeployJob(v))) && !IsDeploy(c.worker)
    requires Only(c.live, was) && c.live != map[] && was != v
    ensures exists rv, key, t ::
      Run(WithZone(s, z, c), Installation(z, rv, key), t) && z in t.zones && !OneVersion(t.zones[z].live)
  {
    var key :| key in c.live;
    var other, rv := key + "x", Last(s).rv + 1;
    assert |other| != |key|;
    DecidedInstalls(s, z, c, at, n, v, rv, other);
    var live := c.live[other := v];
    var t := WithZone(s, z, Controller(live, Some(DeployJob(v)), Idle));
    assert live[key] == was && live[other] == v && !OneVersion(live);
    assert t.zones[z].live == live;
  }

  // A placed zone with nothing listed and no job asks for a deployment of the target.
  lemma FirstDeploy(s: Status, z: ZoneId, p: Phase, spec: Spec, report: Condition, now: int)
    requires p.Loaded? && p.listed == map[] && s.zones == [] && s.ownership.state != NoState
    requires s.ownership.placements == Some([Placement(z, [])])
    ensures var d := Derivation(s, z, p, None, spec, report, now);
      d.Decided? && d.at == p.at && d.job == Some(DeployJob(p.target))
  {
    var v := ViewOf(s, z, p, None, spec, report, now);
    assert s.ownership.placements.value[0].zone == z;
    assert PlacementsContain(s, z) && Noted(s, v) == s;
    assert LocalPart(s, v).1.job == Some(DeployJob(p.target));
    ConcludeFrame(LocalPart(s, v).0, LocalPart(s, v).1, v);
    LocalPartFrame(s, v);
    ConcludeJob(LocalPart(s, v).0, LocalPart(s, v).1, v);
  }

  function One(log: seq<Entry>, z: ZoneId, c: Controller): System { System(log, map[z := c]) }

  // A commit of the only zone, stored or not.
  lemma OneCommits(log: seq<Entry>, z: ZoneId, c: Controller, rv: int)
    requires |log| > 0 && c.phase.Cleared? && rv > log[|log| - 1].rv
    ensures var s, c', last := One(log, z, c), c.(phase := Ready(c.phase.job)), log[|log| - 1];
      && Enabled(s, Commit(z, rv, true))
      && Apply(s, Commit(z, rv, true)) ==
           if c.phase.status.Some? && Updated(last.status, c.phase.status.value, z) then
             One(Written(s, z, rv, MergeStatus(last.status, c.phase.status.value, z)), z, c')
           else One(log, z, c')
  {
    var s, c' := One(log, z, c), c.(phase := Ready(c.phase.job));
    assert WithZone(s, z, c') == One(log, z, c');
  }

  lemma OneDerives(log: seq<Entry>, z: ZoneId, c: Controller, step: Step)
    requires Enabled(One(log, z, c), step) && step.DeriveStatus?
    ensures Apply(One(log, z, c), step) ==
      One(log, z, c.(phase :=
        Derivation(log[c.phase.at].status, z, c.phase, c.worker, step.spec, step.report, step.now)))
  {
    DeriveApplies(One(log, z, c), step);
  }

  // A step of the only zone, to the state it leads to.
  lemma Back(log: seq<Entry>, z: ZoneId, c: Controller, step: Step, c': Controller, t: System)
    requires Enabled(One(log, z, c), step) && !step.Crash?
    requires Apply(One(log, z, c), step) == WithZone(One(log, z, c), z, c')
    requires Reaches(One(log, z, c'), t)
    ensures Reaches(One(log, z, c), t)
  {
    assert WithZone(One(log, z, c), z, c') == One(log, z, c');
    ReachesByStep(One(log, z, c), step, t);
  }

  lemma BackSync(log: seq<Entry>, z: ZoneId, live: map<ResourceKey, Version>, v: Version, phase: Phase,
                 key: ResourceKey, t: System)
    requires |log| > 0 && Reaches(One(log, z, Controller(live[key := v], Some(DeployJob(v)), phase)), t)
    ensures Reaches(One(log, z, Controller(live, Some(DeployJob(v)), phase)), t)
  {
    assert Synced(live, {key}, {}, v) == live[key := v];
    Back(log, z, Controller(live, Some(DeployJob(v)), phase), Sync(z, {key}, {}),
         Controller(live[key := v], Some(DeployJob(v)), phase), t);
  }

  // One zone whose last status places it: the deciding, stopping, committing (in vain) and starting steps of a
  // reconciliation that has listed nothing put a deployment of its target to work.
  lemma DeployRound(log: seq<Entry>, z: ZoneId, live: map<ResourceKey, Version>, p: Phase, spec: Spec,
                    report: Condition, t: System)
    requires |log| > 0 && p.Loaded? && p.at == |log| - 1 && p.listed == map[]
    requires var s := log[|log| - 1].status;
      s.zones == [] && s.ownership.state != NoState && s.ownership.placements == Some([Placement(z, [])])
    requires Reaches(One(log, z, Controller(live, Some(DeployJob(p.target)), Idle)), t)
    ensures Reaches(One(log, z, Controller(live, None, p)), t)
  {
    FirstDeploy(log[p.at].status, z, p, spec, report, 0);
    var d := Derivation(log[p.at].status, z, p, None, spec, report, 0);
    DecidedRound(log, z, live, d, p.target, t);
    Back(log, z, Controller(live, None, p), DeriveStatus(z, spec, report, 0), Controller(live, None, d), t);
  }

  lemma DecidedRound(log: seq<Entry>, z: ZoneId, live: map<ResourceKey, Version>, d: Phase, v: Version, t: System)
    requires |log| > 0 && d.Decided? && d.job == Some(DeployJob(v))
    requires Reaches(One(log, z, Controller(live, Some(DeployJob(v)), Idle)), t)
    ensures Reaches(One(log, z, Controller(live, None, d)), t)
  {
    var c2 := Controller(live, None, Cleared(d.at, d.status, d.job));
    var c3 := Controller(live, None, Ready(d.job));
    Back(log, z, c3, Start(z), Controller(live, Some(DeployJob(v)), Idle), t);
    Back(log, z, c2, Commit(z, log[|log| - 1].rv + 1, false), c3, t);
    Back(log, z, Controller(live, None, d), StopOther(z), c2, t);
  }

  // From a history that ends with a placed, empty status: the listing of the second round is taken before the first
  // deployment installs "a", and the registry is read after that deployment has finished.
  lemma MixFromPlaced(log: seq<Entry>, z: ZoneId, v: Version, w: Version, spec: Spec, report: Condition)
    requires |log| > 0
    requires var s := log[|log| - 1].status;
      && s.zones == [] && s.ownership.state != NoState && s.ownership.owner != ""
      && s.ownership.placements == Some([Placement(z, [])])
    ensures Reaches(One(log, z, Controller(map[], None, Idle)),
                    One(log, z, Controller(map["a" := v, "b" := w], Some(DeployJob(w)), Idle)))
  {
    var t := One(log, z, Controller(map["a" := v, "b" := w], Some(DeployJob(w)), Idle));
    var at, some := |log| - 1, map["a" := v];
    var first, second := Loaded(at, map[], None, v, false, Healthy),
                         Loaded(at, map[], Some(DeployJob(v)), w, false, Healthy);
    assert Run(t, [], t);
    BackSync(log, z, some, w, Idle, "b", t);
    DeployRound(log, z, some, second, spec, report, t);
    Back(log, z, Controller(some, Some(DeployJob(v)), second), Finish(z), Controller(some, None, second), t);
    assert map[]["a" := v] == some;
    BackSync(log, z, map[], v, second, "a", t);
    Back(log, z, Controller(map[], Some(DeployJob(v)), Idle), Load(z, at, w, false, Healthy),
         Controller(map[], Some(DeployJob(v)), second), t);
    DeployRound(log, z, map[], first, spec, report, t);
    Back(log, z, Controller(map[], None, Idle), Load(z, at, v, false, Healthy), Controller(map[], None, first), t);
  }

  // Without a current listing two versions can meet: a deployment that installs its version and finishes between
  // the listing and the look into the job registry is seen by neither.
  lemma StaleListingMixesVersions(z: ZoneId, v: Version, w: Version, spec: Spec, report: Condition)
    requires z != "" && v != w
    ensures exists s, steps, t :: Initial(s) && Run(s, steps, t) && z in t.zones && !OneVersion(t.zones[z].live)
  {
    var idle := Controller(map[], None, Idle);
    var log0 := [Entry(0, EMPTY_STATUS, None)];
    var claimed := Claimed(EMPTY_STATUS, z);
    var log1 := log0 + [Entry(1, claimed, Some(z))];
    var placements := [Placement(z, [])];
    var placed := claimed.(ownership := claimed.ownership.(placements := Some(placements)));
    var log := log1 + [Entry(2, placed, None)];
    var t := One(log, z, Controller(map["a" := v, "b" := w], Some(DeployJob(w)), Idle));
    MixFromPlaced(log, z, v, w, spec, report);
    ReachesByStep(One(log1, z, idle), SetPlacements(placements, 2), t);
    ReachesByStep(One(log0, z, idle), Initialize(z, 0, 1), t);
    var steps :| CrashFree(steps) && Run(One(log0, z, idle), steps, t);
    var live := t.zones[z].live;
    assert live["a"] == v && live["b"] == w && !OneVersion(live);
    assert Initial(One(log0, z, idle));
  }
}
