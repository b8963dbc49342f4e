// What one derivation decides and leaves behind, in words: which job, which conditions of the own entry, which global
// state. Everything is said about the derived status, the snapshot and the view, not about the steps between.
module Decisions {
  import opened Wrappers
  import opened Api
  import opened Fsm

  // ---- when an undeployment is due ----

  ghost predicate Placed(s: Status, z: ZoneId) {
    s.ownership.placements.Some? && exists p :: p in s.ownership.placements.value && p.zone == z
  }

  ghost predicate ActiveInstalled(v: View) { v.active.Some? && v.active.value in v.installed }

  // Something else than the stored version is installed, or the stored version is and the zone is not placed or has
  // a new version.
  ghost predicate UndeployDue(s: Status, v: View) {
    || (exists w :: w in v.installed && v.active != Some(w))
    || (ActiveInstalled(v) && (v.newVersion.Some? || !Placed(s, v.zone)))
  }

  lemma InWords(s: Status, v: View)
    ensures Placed(s, v.zone) <==> PlacementsContain(s, v.zone)
    ensures ActiveInstalled(v) <==> v.IsPresent()
    ensures UndeployDue(s, v) <==> MustUndeploy(s, v)
  {
    if PlacementsContain(s, v.zone) {
      var i :| 0 <= i < |s.ownership.placements.value| && s.ownership.placements.value[i].zone == v.zone;
      assert s.ownership.placements.value[i] in s.ownership.placements.value;
    }
    var others := v.installed - (if v.active.Some? then {v.active.value} else {});
    if w :| w in v.installed && v.active != Some(w) { assert w in others; }
    if others != {} {
      var w :| w in others;
      assert w in v.installed && v.active != Some(w);
    }
  }

  // ---- which job ----

  // The last attempt of this kind failed and no retry is left.
  ghost predicate GaveUp(s: Status, v: View, t: ConditionType) {
    exists c :: c in Own(s, v.zone).conditions
      && c.ctype == t && c.code == Failure && c.retryAttempt >= v.spec.maxRetries
  }

  lemma GaveUpIs(s: Status, v: View, t: ConditionType)
    requires WellFormedStatus(s)
    ensures GaveUp(s, v, t) <==> AttemptsExhausted(Own(s, v.zone).conditions, t, v.spec.maxRetries)
  {
    var own := Own(s, v.zone);
    OwnWellFormed(s, v.zone);
    var k := TypeIndex(own.conditions, t);
    if k < |own.conditions| { assert own.conditions[k] in own.conditions; }
    if c :| c in own.conditions && c.ctype == t && c.code == Failure && c.retryAttempt >= v.spec.maxRetries {
      var j :| 0 <= j < |own.conditions| && own.conditions[j] == c;
      assert own.conditions[j].zone == v.zone && own.conditions[k].zone == v.zone;
      assert j == k;
    }
  }

  ghost predicate Undeploys(s: Status, v: View) {
    UndeployDue(s, v) && ActiveInstalled(v) && !v.IsRunning(UndeployType) && !GaveUp(s, v, UndeploymentCondition)
  }

  ghost predicate Deploys(s: Status, v: View) {
    && !UndeployDue(s, v) && Placed(s, v.zone) && !(ActiveInstalled(v) && v.complete)
    && !v.IsRunning(DeployType) && !GaveUp(s, v, DeploymentCondition)
  }

  ghost predicate Operates(s: Status, v: View) {
    !UndeployDue(s, v) && Placed(s, v.zone) && ActiveInstalled(v) && v.complete && !v.IsRunning(OperationType)
  }

  ghost predicate Places(s: Status, v: View) {
    && (s.ownership.state == NoState || s.ownership.owner == v.zone)
    && v.spec.strategy.LocalStrategy? && s.ownership.placements.None?
    && !(v.IsRunning(PlacementType) && UndeployDue(s, v))
  }

  // Which job a derivation asks for, of which version, and when it panics.
  lemma JobsInWords(s: Status, v: View)
    requires v.Valid() && WellFormedStatus(s)
    ensures Derive(s, v).Panicked? <==> Undeploys(s, v) && Places(s, v)
    ensures Derive(s, v).Derived? ==>
      Derive(s, v).job ==
        if Undeploys(s, v) then Some(UndeployJob)
        else if Deploys(s, v) then
          Some(DeployJob(if v.newVersion.Some? then v.newVersion.value else v.active.value))
        else if Operates(s, v) then Some(OperationJob(v.active.value))
        else if Places(s, v) then Some(PlacementJob)
        else None
  {
    LocalJobInWords(s, v);
    JobsExactly(s, v);
  }

  // ---- which conditions the own entry holds ----

  ghost predicate Has(s: Status, v: View, t: ConditionType) { HasCondition(Own(s, v.zone).conditions, t, v.zone) }

  // In the snapshot, or noted for the installed application or the running job.
  ghost predicate Known(s: Status, v: View, t: ConditionType) {
    || Has(s, v, t)
    || (t == LocalCondition && ActiveInstalled(v) && v.complete)
    || (v.running.Some? && v.running.value.report.ctype == t)
  }

  // The undeployment known is done.
  ghost predicate UndeploymentDone(s: Status, v: View) {
    if Has(s, v, UndeploymentCondition) then
      exists c :: c in Own(s, v.zone).conditions && c.ctype == UndeploymentCondition && c.code == Done
    else v.IsRunning(UndeployType) && v.running.value.report.code == Done
  }

  // The table of conditions after a derivation: an undeployment leaves no local and no deployment condition, and no
  // undeployment one if it is done; a deployment no local and no undeployment one; an operation no undeployment one,
  // and no deployment one once it runs; a zone that is neither placed nor has anything installed keeps none. The
  // condition of the requested job is always there, every other one if it was known.
  ghost predicate Holds(s: Status, v: View, t: ConditionType) {
    match t
    case LocalCondition => !UndeployDue(s, v) && Placed(s, v.zone) && ActiveInstalled(v) && v.complete
    case DeploymentCondition =>
      && !UndeployDue(s, v) && Placed(s, v.zone)
      && (if ActiveInstalled(v) && v.complete then Known(s, v, t) && !v.IsRunning(OperationType)
          else Known(s, v, t) || Deploys(s, v))
    case UndeploymentCondition =>
      UndeployDue(s, v) && (Undeploys(s, v) || (Known(s, v, t) && !UndeploymentDone(s, v)))
    case PlacementCondition =>
      ((UndeployDue(s, v) || Placed(s, v.zone)) && Known(s, v, t)) || Places(s, v)
    case OwnershipTransferCondition =>
      (UndeployDue(s, v) || Placed(s, v.zone)) && Known(s, v, t)
  }

  lemma NotedHas(s: Status, v: View, t: ConditionType)
    requires v.Valid()
    ensures Has(Noted(s, v), v, t) <==> Known(s, v, t)
  {
    var z, s1 := v.zone, Claimed(s, v.zone);
    InWords(s, v);
    assert Own(s1, z) == Own(s, z);
    var s2 := if v.IsDeployed() then WithCondition(s1, z, LocalReport(v)) else s1;
    if v.IsDeployed() { WithHas(s1, z, LocalReport(v), t); }
    if v.running.Some? { WithHas(s2, z, v.running.value.report, t); }
  }

  lemma WithHas(s: Status, z: ZoneId, c: Condition, t: ConditionType)
    ensures HasCondition(Own(WithCondition(s, z, c), z).conditions, t, z) <==>
      HasCondition(Own(s, z).conditions, t, z) || KeyOf(c) == (t, z)
  {
    InsertedFrame(s, z, c);
    Present(Own(s, z).conditions, t, z);
    Present(Own(WithCondition(s, z, c), z).conditions, t, z);
  }

  lemma NotedDone(s: Status, v: View)
    requires v.Valid() && WellFormedStatus(s)
    ensures var conditions := Own(Noted(s, v), v.zone).conditions;
      var k := TypeIndex(conditions, UndeploymentCondition);
      (k < |conditions| && conditions[k].code == Done) <==> UndeploymentDone(s, v)
  {
    LocalWellFormed(s, v);
    OwnWellFormed(Noted(s, v), v.zone);
    OwnWellFormed(s, v.zone);
    NotedFrame(s, v);
    NotedHas(s, v, UndeploymentCondition);
    var zs := Own(Noted(s, v), v.zone);
    FindConditionAgrees(zs, UndeploymentCondition);
    var k := TypeIndex(zs.conditions, UndeploymentCondition);
    Present(Own(s, v.zone).conditions, UndeploymentCondition, v.zone);
    if k < |zs.conditions| {
      var c := zs.conditions[k];
      assert c in zs.conditions;
      forall d | d in zs.conditions && d.ctype == UndeploymentCondition ensures d == c {
        OnlyOne(zs, d, k);
      }
    }
  }

  lemma OnlyOne(zs: ZoneStatus, d: Condition, k: nat)
    requires WellFormedZone(zs) && k < |zs.conditions| && d in zs.conditions && d.ctype == zs.conditions[k].ctype
    ensures d == zs.conditions[k]
  {
    var j :| 0 <= j < |zs.conditions| && zs.conditions[j] == d;
    assert zs.conditions[j].zone == zs.zoneId && zs.conditions[k].zone == zs.zoneId;
  }

  ghost predicate Lists(toRemove: seq<Condition>, t: ConditionType, z: ZoneId) {
    exists d :: d in toRemove && KeyOf(d) == (t, z)
  }

  lemma ListedLists(toRemove: seq<Condition>, conditions: seq<Condition>, ctype: ConditionType, z: ZoneId,
                    t: ConditionType)
    ensures Lists(Listed(toRemove, conditions, ctype, z), t, z) <==>
      Lists(toRemove, t, z) || (t == ctype && HasCondition(conditions, ctype, z))
  {
    if HasCondition(conditions, ctype, z) {
      var c := conditions[ConditionIndex(conditions, ctype, z)];
      assert c in toRemove + [c] && KeyOf(c) == (ctype, z);
      assert forall d :: d in toRemove ==> d in toRemove + [c];
    }
  }

  // Which of the noted conditions the local step takes away.
  ghost predicate Goes(b: Status, v: View, t: ConditionType) {
    var conditions := Own(b, v.zone).conditions;
    var k := TypeIndex(conditions, UndeploymentCondition);
    if MustUndeploy(b, v) then
      || t == LocalCondition || t == DeploymentCondition
      || (t == UndeploymentCondition && k < |conditions| && conditions[k].code == Done
          && !(v.IsPresent() && !v.IsRunning(UndeployType)
               && !AttemptsExhausted(conditions, UndeploymentCondition, v.spec.maxRetries)))
    else if PlacementsContain(b, v.zone) then
      if !v.IsDeployed() then t == LocalCondition || t == UndeploymentCondition
      else t == UndeploymentCondition || (t == DeploymentCondition && v.IsRunning(OperationType))
    else true
  }

  lemma LocalRemoves(b: Status, v: View, t: ConditionType)
    requires v.Valid() && LocalApplies(b, v)
    ensures Lists(LocalNext(b, v).toRemove, t, v.zone) <==> Has(b, v, t) && Goes(b, v, t)
  {
    if MustUndeploy(b, v) {
      UndeployLists(b, v, t);
    } else if PlacementsContain(b, v.zone) {
      if !v.IsDeployed() { DeployLists(b, v, t); } else { OperationLists(b, v, t); }
    } else {
      Present(Own(b, v.zone).conditions, t, v.zone);
    }
  }

  lemma UndeployLists(b: Status, v: View, t: ConditionType)
    requires v.Valid() && MustUndeploy(b, v)
    ensures Lists(HandleUndeploy(b, v).toRemove, t, v.zone) <==> Has(b, v, t) && Goes(b, v, t)
  {
    var conditions, z := Own(b, v.zone).conditions, v.zone;
    var one := Listed([], conditions, LocalCondition, z);
    var two := Listed(one, conditions, DeploymentCondition, z);
    ListedLists([], conditions, LocalCondition, z, t);
    ListedLists(one, conditions, DeploymentCondition, z, t);
    ListedLists(two, conditions, UndeploymentCondition, z, t);
  }

  lemma DeployLists(b: Status, v: View, t: ConditionType)
    requires v.Valid() && !MustUndeploy(b, v) && PlacementsContain(b, v.zone) && !v.IsDeployed()
    ensures Lists(HandleDeploy(b, v).toRemove, t, v.zone) <==> Has(b, v, t) && Goes(b, v, t)
  {
    var conditions, z := Own(b, v.zone).conditions, v.zone;
    ListedLists([], conditions, LocalCondition, z, t);
    ListedLists(Listed([], conditions, LocalCondition, z), conditions, UndeploymentCondition, z, t);
  }

  lemma OperationLists(b: Status, v: View, t: ConditionType)
    requires v.Valid() && !MustUndeploy(b, v) && PlacementsContain(b, v.zone) && v.IsDeployed()
    ensures Lists(HandleOperation(b, v).toRemove, t, v.zone) <==> Has(b, v, t) && Goes(b, v, t)
  {
    var conditions, z := Own(b, v.zone).conditions, v.zone;
    ListedLists([], conditions, UndeploymentCondition, z, t);
    ListedLists(Listed([], conditions, UndeploymentCondition, z), conditions, DeploymentCondition, z, t);
  }

  lemma LocalAppliedHas(b: Status, z: ZoneId, l: NextState, t: ConditionType)
    ensures HasCondition(Own(LocalApplied(b, z, l), z).conditions, t, z) <==>
      || (HasCondition(Own(b, z).conditions, t, z) && !Lists(l.toRemove, t, z))
      || (l.toAdd.Some? && KeyOf(l.toAdd.value) == (t, z))
  {
    var s1 := RemoveAll(b, z, l.toRemove);
    RemoveAllFrame(b, z, l.toRemove);
    var s2 := if l.toAdd.Some? then WithCondition(s1, z, l.toAdd.value) else s1;
    if l.toAdd.Some? { InsertedFrame(s1, z, l.toAdd.value); }
    if l.newVersion.Some? { PutOwn(s2, z, Own(s2, z).(chartVersion := l.newVersion)); }
    Present(Own(b, z).conditions, t, z);
    Present(Own(s1, z).conditions, t, z);
    Present(Own(s2, z).conditions, t, z);
  }

  lemma LocalHas(b: Status, v: View, t: ConditionType)
    requires v.Valid()
    ensures var job := LocalJob(b, v);
      Has(LocalPart(b, v).0, v, t) <==>
        (Has(b, v, t) && !Goes(b, v, t)) || (job.Some? && ReportType(job.value.Type()) == t)
  {
    LocalJobs(b, v);
    if LocalApplies(b, v) {
      PutOwn(b, v.zone, Own(b, v.zone));
      LocalAppliedHas(LocalTouched(b, v), v.zone, LocalNext(b, v), t);
      LocalRemoves(b, v, t);
    }
  }

  lemma OwnerPartHas(s1: Status, v: View, t: ConditionType)
    ensures Has(OwnerPart(s1, v).0, v, t) <==>
      Has(s1, v, t) || (t == PlacementCondition && s1.ownership.owner == v.zone && GlobalNext(s1, v).job.Some?)
  {
    var z, g := v.zone, GlobalNext(s1, v);
    if s1.ownership.owner == z && g.toAdd.Some? {
      InsertedFrame(s1, z, g.toAdd.value);
      Present(Own(s1, z).conditions, t, z);
      Present(Own(OwnerPart(s1, v).0, z).conditions, t, z);
    }
  }

  lemma ConcludeHas(s1: Status, l: NextState, v: View, t: ConditionType)
    requires Conclude(s1, l, v).Derived?
    ensures Has(Conclude(s1, l, v).status, v, t) <==> Has(OwnerPart(s1, v).0, v, t)
  {
    OthersLacksZone(OwnerPart(s1, v).0.zones, v.zone);
  }

  // After a derivation the own entry holds exactly the conditions of the table.
  lemma ConditionsExactly(s: Status, v: View, t: ConditionType)
    requires v.Valid() && WellFormedStatus(s) && Derive(s, v).Derived?
    ensures HasCondition(Own(Derive(s, v).status, v.zone).conditions, t, v.zone) <==> Holds(s, v, t)
  {
    var b := Noted(s, v);
    NotedFrame(s, v);
    NotedKeepsJob(s, v);
    var (s1, l) := LocalPart(b, v);
    LocalPartFrame(b, v);
    PlacementExactly(b, v);
    LocalHas(b, v, t);
    OwnerPartHas(s1, v, t);
    ConcludeHas(s1, l, v, t);
    TableIs(s, v, t);
  }

  lemma GoesInWords(s: Status, v: View, t: ConditionType)
    requires v.Valid() && WellFormedStatus(s)
    ensures Goes(Noted(s, v), v, t) <==>
      if UndeployDue(s, v) then
        || t == LocalCondition || t == DeploymentCondition
        || (t == UndeploymentCondition && UndeploymentDone(s, v) && !Undeploys(s, v))
      else if Placed(s, v.zone) then
        if !(ActiveInstalled(v) && v.complete) then t == LocalCondition || t == UndeploymentCondition
        else t == UndeploymentCondition || (t == DeploymentCondition && v.IsRunning(OperationType))
      else true
  {
    InWords(s, v);
    GaveUpIs(s, v, UndeploymentCondition);
    NotedDone(s, v);
    NotedKeepsJob(s, v);
    if !v.IsRunning(UndeployType) { NotedKeepsAttempts(s, v, UndeployType); }
  }

  lemma LocalJobInWords(s: Status, v: View)
    requires v.Valid() && WellFormedStatus(s)
    ensures LocalJob(s, v) ==
      if Undeploys(s, v) then Some(UndeployJob)
      else if Deploys(s, v) then Some(DeployJob(v.Target()))
      else if Operates(s, v) then Some(OperationJob(v.active.value)) else None
    ensures MustPlace(s, v) <==> Places(s, v)
  {
    InWords(s, v);
    GaveUpIs(s, v, UndeploymentCondition);
    GaveUpIs(s, v, DeploymentCondition);
  }

  lemma TableIs(s: Status, v: View, t: ConditionType)
    requires v.Valid() && WellFormedStatus(s)
    ensures var b, job := Noted(s, v), LocalJob(s, v);
      Holds(s, v, t) <==>
        || (Has(b, v, t) && !Goes(b, v, t)) || (job.Some? && ReportType(job.value.Type()) == t)
        || (t == PlacementCondition && MustPlace(s, v))
  {
    NotedHas(s, v, t);
    GoesInWords(s, v, t);
    LocalJobInWords(s, v);
  }

  // The report of a job that has just been requested, type by type.
  ghost function NewReport(job: Job, z: ZoneId, now: int): Condition {
    match job
    case DeployJob(_) => Condition(DeploymentCondition, z, Pull, now, "", "", 0)
    case UndeployJob => Condition(UndeploymentCondition, z, Undeploy, now, "", "", 0)
    case OperationJob(_) => Condition(LocalCondition, z, Progressing, now, "", "", 0)
    case PlacementJob => Condition(PlacementCondition, z, InProgress, now, "", "", 0)
  }

  // Every condition of the derived entry is the snapshot's, the installed application's, the running job's, or the
  // requested job's.
  lemma ConditionsFrom(s: Status, v: View, c: Condition)
    requires v.Valid() && Derive(s, v).Derived? && c in Own(Derive(s, v).status, v.zone).conditions
    ensures
      || c in Own(s, v.zone).conditions
      || (ActiveInstalled(v) && v.complete && c == Condition(LocalCondition, v.zone, v.health, v.now, "", "", 0))
      || (v.running.Some? && c == v.running.value.report)
      || (Derive(s, v).job.Some? && c == NewReport(Derive(s, v).job.value, v.zone, v.now))
  {
    var b := Noted(s, v);
    NotedFrame(s, v);
    InWords(s, v);
    LocalFrom(b, v);
    ConcludeFrom(LocalPart(b, v).0, LocalPart(b, v).1, v, c);
  }

  lemma LocalFrom(b: Status, v: View)
    requires v.Valid()
    ensures var (s1, l) := LocalPart(b, v);
      && (l.toAdd.Some? <==> l.job.Some?)
      && forall c :: c in Own(s1, v.zone).conditions ==>
           c in Own(b, v.zone).conditions || (l.job.Some? && c == NewReport(l.job.value, v.zone, v.now))
  {
    LocalJobs(b, v);
    LocalPartFrame(b, v);
  }

  lemma ConcludeFrom(s1: Status, l: NextState, v: View, c: Condition)
    requires Conclude(s1, l, v).Derived? && c in Own(Conclude(s1, l, v).status, v.zone).conditions
    requires l.toAdd.Some? <==> l.job.Some?
    ensures c in Own(s1, v.zone).conditions
            || (l.job.None? && Conclude(s1, l, v).job == Some(PlacementJob)
                && c == NewReport(PlacementJob, v.zone, v.now))
    ensures l.job.Some? ==> Conclude(s1, l, v).job == l.job
  {
    var g := GlobalNext(s1, v);
    if s1.ownership.owner == v.zone && g.toAdd.Some? { InsertedFrame(s1, v.zone, g.toAdd.value); }
    OthersLacksZone(OwnerPart(s1, v).0.zones, v.zone);
  }

  // A condition of the snapshot whose type the table keeps stays as it is; only the placement condition of an
  // unplaced zone without anything to undeploy is renewed.
  lemma ConditionsKept(s: Status, v: View, c: Condition)
    requires v.Valid() && WellFormedStatus(s) && Derive(s, v).Derived?
    requires c in Own(s, v.zone).conditions && Holds(s, v, c.ctype)
    requires c.ctype == PlacementCondition ==> UndeployDue(s, v) || Placed(s, v.zone)
    ensures c in Own(Derive(s, v).status, v.zone).conditions
  {
    var b, z, t := Noted(s, v), v.zone, c.ctype;
    NotedFrame(s, v);
    OwnWellFormed(s, z);
    assert KeyOf(c) == (t, z);
    GoesInWords(s, v, t);
    var (s1, l) := LocalPart(b, v);
    LocalPartFrame(b, v);
    Present(Own(s, z).conditions, t, z);
    assert !Goes(b, v, t);
    if LocalApplies(b, v) { LocalRemoves(b, v, t); }
    assert !Lists(l.toRemove, t, z);
    ConcludeKeeps(s1, l, v, c);
  }

  lemma ConcludeKeeps(s1: Status, l: NextState, v: View, c: Condition)
    requires Conclude(s1, l, v).Derived? && c in Own(s1, v.zone).conditions
    ensures c in Own(Conclude(s1, l, v).status, v.zone).conditions
  {
    var g := GlobalNext(s1, v);
    if s1.ownership.owner == v.zone && g.toAdd.Some? { InsertedFrame(s1, v.zone, g.toAdd.value); }
  }

  // ---- which global state ----

  ghost predicate Fails(c: Condition) {
    || (c.ctype == LocalCondition && (c.code == Degraded || c.code == Missing))
    || (c.ctype == DeploymentCondition && c.code == Failure)
    || (c.ctype == UndeploymentCondition && c.code == Failure)
  }

  // The zones with a failing condition.
  ghost function FailedZones(zones: seq<ZoneStatus>): set<ZoneId> {
    set e | e in zones && (exists c :: c in e.conditions && Fails(c)) :: e.zoneId
  }

  ghost predicate OperatesIn(s: Status, z: ZoneId) {
    exists e :: e in s.zones && e.zoneId == z && exists c :: c in e.conditions && KeyOf(c) == (LocalCondition, z)
  }

  lemma FailedZonesStep(zones: seq<ZoneStatus>)
    requires UniqueZones(zones) && zones != []
    ensures FailedZones(zones) == FailedZones(zones[1..]) + (if FailingZone(zones[0]) then {zones[0].zoneId} else {})
    ensures zones[0].zoneId !in FailedZones(zones[1..])
  {
    assert forall e :: e in zones <==> e == zones[0] || e in zones[1..];
    FailsIs(zones[0]);
  }

  lemma {:induction false} FailedZonesCount(zones: seq<ZoneStatus>)
    requires UniqueZones(zones)
    ensures |FailedZones(zones)| == CountFailing(zones)
  {
    if zones != [] {
      FailedZonesCount(zones[1..]);
      FailedZonesStep(zones);
    }
  }

  lemma FailsIs(e: ZoneStatus)
    ensures FailingZone(e) <==> exists c :: c in e.conditions && Fails(c)
  {
    if FailingZone(e) {
      var k :| 0 <= k < |e.conditions| && FailingCondition(e.conditions[k]);
      assert e.conditions[k] in e.conditions && Fails(e.conditions[k]);
    }
    if c :| c in e.conditions && Fails(c) {
      var k :| 0 <= k < |e.conditions| && e.conditions[k] == c;
      assert FailingCondition(e.conditions[k]);
    }
  }

  lemma OperatesIs(s: Status, z: ZoneId)
    requires UniqueZones(s.zones)
    ensures OperatesIn(s, z) <==> ZoneOperates(s, z)
  {
    var i := ZoneIndex(s.zones, z);
    Present(Own(s, z).conditions, LocalCondition, z);
    if i < |s.zones| { assert s.zones[i] in s.zones; }
    if e :| e in s.zones && e.zoneId == z && exists c :: c in e.conditions && KeyOf(c) == (LocalCondition, z) {
      var j :| 0 <= j < |s.zones| && s.zones[j] == e;
      assert i == j;
    }
  }

  // The state an owner with placements derives: failed if more zones fail than are tolerated, else operational if
  // every placement zone operates, else relocation.
  lemma StateInWords(s: Status, v: View)
    requires v.Valid() && WellFormedStatus(s) && Derive(s, v).Derived?
    requires (s.ownership.state == NoState || s.ownership.owner == v.zone) && s.ownership.placements.Some?
    ensures var n := Derive(s, v).status;
      n.ownership.state ==
        if |FailedZones(n.zones)| > v.spec.tolerance then Failed
        else if forall p :: p in s.ownership.placements.value ==> OperatesIn(n, p.zone) then Operational
        else Relocation
  {
    var n, placements := Derive(s, v).status, s.ownership.placements.value;
    GlobalStateIsDeclarative(s, v);
    DeriveWellFormed(s, v);
    DeriveFrame(s, v);
    FailedZonesCount(n.zones);
    CountIsCardinality(n.zones);
    assert n.ownership.placements == Some(placements);
    AllOperateIs(n, placements);
  }

  lemma AllOperateIs(n: Status, placements: seq<Placement>)
    requires UniqueZones(n.zones) && n.ownership.placements == Some(placements)
    ensures AllPlacementsOperate(n) <==> forall p :: p in placements ==> OperatesIn(n, p.zone)
  {
    forall p | p in placements ensures OperatesIn(n, p.zone) <==> ZoneOperates(n, p.zone) { OperatesIs(n, p.zone); }
    if AllPlacementsOperate(n) {
      forall p | p in placements ensures ZoneOperates(n, p.zone) {
        var i :| 0 <= i < |placements| && placements[i] == p;
        assert ZoneOperates(n, placements[i].zone);
      }
    }
    if forall p :: p in placements ==> OperatesIn(n, p.zone) {
      forall i | 0 <= i < |placements| ensures ZoneOperates(n, placements[i].zone) {
        assert placements[i] in placements;
      }
    }
  }

  // While an undeployment of a placed zone is due, its owner derives relocation, unless too many zones fail.
  lemma UndeployingIsRelocation(s: Status, v: View)
    requires v.Valid() && WellFormedStatus(s) && Derive(s, v).Derived?
    requires (s.ownership.state == NoState || s.ownership.owner == v.zone) && Placed(s, v.zone) && UndeployDue(s, v)
    ensures var n := Derive(s, v).status;
      n.ownership.state == if |FailedZones(n.zones)| > v.spec.tolerance then Failed else Relocation
  {
    var n := Derive(s, v).status;
    StateInWords(s, v);
    ConditionsExactly(s, v, LocalCondition);
    DeriveWellFormed(s, v);
    OperatesIs(n, v.zone);
    var p :| p in s.ownership.placements.value && p.zone == v.zone;
    assert !OperatesIn(n, p.zone);
  }

  // The state an owner without placements derives under the local strategy: placing, or failed while the placement
  // job runs, an undeployment is due and the placement condition known says so; under the global one, placing.
  lemma UnplacedState(s: Status, v: View)
    requires v.Valid() && WellFormedStatus(s) && Derive(s, v).Derived?
    requires (s.ownership.state == NoState || s.ownership.owner == v.zone) && s.ownership.placements.None?
    ensures var n := Derive(s, v).status;
      && (Places(s, v) || v.spec.strategy.GlobalStrategy? ==> n.ownership.state == Placing)
      && (n.ownership.state == Placing || n.ownership.state == Failed)
      && (n.ownership.state == Failed <==>
            && v.spec.strategy.LocalStrategy? && !Places(s, v)
            && exists c :: c in Own(n, v.zone).conditions && c.ctype == PlacementCondition && c.code == Failure)
  {
    var b := Noted(s, v);
    NotedFrame(s, v);
    NotedKeepsJob(s, v);
    InWords(s, v);
    var (s1, l) := LocalPart(b, v);
    LocalPartFrame(b, v);
    PlacementExactly(b, v);
    LocalWellFormed(s, v);
    OwnWellFormed(s1, v.zone);
    PlacementState(s1, l, v);
  }

  lemma PlacementState(s1: Status, l: NextState, v: View)
    requires Conclude(s1, l, v).Derived? && s1.ownership.owner == v.zone && s1.ownership.placements.None?
    requires WellFormedZone(Own(s1, v.zone))
    ensures var n, places := Conclude(s1, l, v).status, GlobalNext(s1, v).job.Some?;
      && (places || v.spec.strategy.GlobalStrategy? ==> n.ownership.state == Placing)
      && (n.ownership.state == Placing || n.ownership.state == Failed)
      && (n.ownership.state == Failed <==>
            && v.spec.strategy.LocalStrategy? && !places
            && exists c :: c in Own(n, v.zone).conditions && c.ctype == PlacementCondition && c.code == Failure)
  {
    var zs := Own(s1, v.zone);
    var k := ConditionIndex(zs.conditions, PlacementCondition, v.zone);
    if k < |zs.conditions| {
      assert zs.conditions[k] in zs.conditions;
      forall d | d in zs.conditions && d.ctype == PlacementCondition ensures d == zs.conditions[k] {
        OnlyOne(zs, d, k);
      }
    }
  }

  // ---- whether it is stored ----

  // A derivation that changes anything says so.
  lemma ChangesAreFlagged(s: Status, v: View)
    requires v.Valid() && Derive(s, v).Derived?
    ensures Derive(s, v).status != s ==> Derive(s, v).updated
  {
    var b := Noted(s, v);
    NotedFrame(s, v);
    var (s1, l) := LocalPart(b, v);
    LocalPartFrame(b, v);
    if !Derive(s, v).updated {
      assert b == Claimed(s, v.zone);
      LocalUnchanged(b, v);
      ConcludeUnchanged(b, s1, l, v);
      if s.ownership.state == NoState { StateChosen(s1, l, v); }
    }
  }

  // A local step that flags nothing at most creates the own entry, without conditions.
  lemma LocalUnchanged(b: Status, v: View)
    requires v.Valid() && !LocalUpdated(LocalPart(b, v).1)
    ensures var s1 := LocalPart(b, v).0;
      s1 == b || (!HasZone(b, v.zone) && HasZone(s1, v.zone) && Own(s1, v.zone).conditions == [])
  {
    PutOwn(b, v.zone, Own(b, v.zone));
  }

  lemma ConcludeUnchanged(b: Status, s1: Status, l: NextState, v: View)
    requires Conclude(s1, l, v).Derived? && !Conclude(s1, l, v).updated
    requires s1 == b || (HasZone(s1, v.zone) && Own(s1, v.zone).conditions == [])
    ensures s1 == b && Conclude(s1, l, v).status == b
  {
    OthersLacksZone(s1.zones, v.zone);
  }

  lemma StateChosen(s1: Status, l: NextState, v: View)
    requires Conclude(s1, l, v).Derived? && !Conclude(s1, l, v).updated && s1.ownership.owner == v.zone
    ensures s1.ownership.state != New
  {}
}
