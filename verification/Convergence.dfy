// Convergence of one zone without faults: rounds of one whole reconciliation and one job cycle bring a placed (or,
// under the local strategy, a freshly claimed) application to the target version and keep it there.
module Convergence {
  import opened Wrappers
  import opened Versions
  import opened Api
  import opened Fsm
  import opened Merge
  import opened Protocol

  // The resources a version renders to.
  type Chart = Version -> set<ResourceKey>

  datatype World = World(rv: int, status: Status, live: map<ResourceKey, Version>, worker: Option<Job>)

  // What one round gets from outside: the specification, the target, the clock, the running job's report at the
  // reconciliation, what the job's cycle applies, prunes or deletes, and what it reports.
  datatype Round = Round(spec: Spec, target: Version, health: Code, now: int, report: Condition,
                         applied: set<ResourceKey>, removed: set<ResourceKey>, told: Condition)

  ghost predicate Complete(live: map<ResourceKey, Version>, chart: Chart, v: Version) {
    forall k :: k in chart(v) ==> k in live && live[k] == v
  }

  // What a deployment waits for: all of the version, of which there is something.
  ghost predicate Installed(live: map<ResourceKey, Version>, chart: Chart, v: Version) {
    chart(v) != {} && Complete(live, chart, v)
  }

  function Active(w: World, z: ZoneId): Option<Version> { Own(w.status, z).chartVersion }

  // What a reconciliation lists, with the position of its snapshot in the history.
  ghost function Listing(w: World, z: ZoneId, chart: Chart, r: Round, at: nat): Phase {
    var active := Active(w, z);
    Loaded(at, w.live, w.worker, r.target, active.Some? && Complete(w.live, chart, active.value), r.health)
  }

  ghost function Seen(w: World, z: ZoneId, chart: Chart, r: Round): View {
    ViewOf(w.status, z, Listing(w, z, chart, r, 0), w.worker, r.spec, r.report, r.now)
  }

  // Stop a job of another type, then start unless one of the same type runs.
  function Scheduled(worker: Option<Job>, job: Option<Job>): Option<Job> {
    if job.Some? && !(worker.Some? && worker.value.Type() == job.value.Type()) then job else worker
  }

  function Merged(w: World, z: ZoneId, n: Option<Status>): (m: World)
    ensures m.rv == w.rv ==> m == w
  {
    if n.Some? && Updated(w.status, n.value, z) then
      w.(rv := w.rv + 1, status := BumpZone(MergeStatus(w.status, n.value, z), z, w.rv))
    else w
  }

  ghost function Reconciled(w: World, z: ZoneId, chart: Chart, r: Round): (m: World)
    requires ReportOf(r.report, z, w.worker)
    ensures m.rv == w.rv ==> m.status == w.status
  {
    var d := Derivation(w.status, z, Listing(w, z, chart, r, 0), w.worker, r.spec, r.report, r.now);
    if d.Decided? then Merged(w, z, d.status).(worker := Scheduled(w.worker, d.job)) else w
  }

  function Told(w: World, z: ZoneId, t: JobType, c: Condition): (m: World)
    ensures m.rv == w.rv ==> m == w
  {
    var (updated, status) := JobReport(w.status, z, t, c);
    if updated then w.(rv := w.rv + 1, status := BumpZone(status, z, w.rv)) else w
  }

  ghost function Cycled(w: World, z: ZoneId, chart: Chart, r: Round): (n: World)
    ensures n.rv == w.rv ==> n.status == w.status
  {
    match w.worker
    case None => w
    case Some(UndeployJob) =>
      var live := w.live - r.removed;
      Told(w, z, UndeployType, r.told).(live := live, worker := if live == map[] then None else w.worker)
    case Some(DeployJob(v)) =>
      var live := Synced(w.live, r.applied, r.removed, v);
      if Installed(live, chart, v) then Told(w, z, DeployType, r.told).(live := live, worker := None)
      else w.(live := live)
    case Some(OperationJob(v)) =>
      Told(w, z, OperationType, r.told).(worker := if r.target.Equal(v) then w.worker else None)
    case Some(PlacementJob) => Told(w, z, PlacementType, r.told).(worker := None)
  }

  // A faultless cycle: it makes progress, touches only the version's resources, and reports no failure. The
  // deployment of an empty chart can only time out.
  ghost predicate CycleOk(w: World, z: ZoneId, chart: Chart, r: Round) {
    match w.worker
    case None => true
    case Some(UndeployJob) =>
      && ReportOf(r.told, z, w.worker) && r.told.code == (if w.live - r.removed == map[] then Done else Undeploy)
      && (w.live != map[] ==> exists k :: k in w.live && k in r.removed)
    case Some(DeployJob(v)) =>
      && ReportOf(r.told, z, w.worker) && r.told.code == Done
      && r.applied <= chart(v) && r.removed !! chart(v) && chart(v) != {}
      && (!Complete(w.live, chart, v) ==> exists k :: k in r.applied && !(k in w.live && w.live[k] == v))
    case Some(OperationJob(_)) =>
      ReportOf(r.told, z, w.worker) && (r.told.code == Healthy || r.told.code == Progressing)
    case Some(PlacementJob) => ReportOf(r.told, z, w.worker) && r.told.code == Done
  }

  ghost predicate Failing(c: Condition) {
    c.code == Failure && (c.ctype == DeploymentCondition || c.ctype == UndeploymentCondition)
  }

  ghost predicate NoFailure(s: Status, z: ZoneId) {
    forall c :: c in Own(s, z).conditions ==> !Failing(c)
  }

  // ---- the invariant of faultless rounds ----

  ghost predicate FromChart(live: map<ResourceKey, Version>, chart: Chart) {
    forall k :: k in live ==> k in chart(live[k])
  }

  // Whatever is installed belongs to the stored version, except while an undeployment is at work.
  ghost predicate PlacedOk(w: World, z: ZoneId, chart: Chart) {
    && FromChart(w.live, chart) && OneVersion(w.live)
    && (w.worker != Some(UndeployJob) ==> forall k :: k in w.live ==> Active(w, z) == Some(w.live[k]))
    && (match w.worker
        case Some(DeployJob(v)) => Active(w, z) == Some(v)
        case Some(OperationJob(v)) => Active(w, z) == Some(v) && Complete(w.live, chart, v)
        case Some(PlacementJob) => false
        case _ => true)
  }

  // A claimed application that waits for its placement.
  ghost predicate UnplacedOk(w: World, z: ZoneId) {
    && w.status.ownership.owner == z && w.status.ownership.placements.None?
    && w.live == map[] && Active(w, z).None? && (w.worker.None? || w.worker == Some(PlacementJob))
  }

  ghost predicate Good(w: World, z: ZoneId, chart: Chart) {
    && w.status.ownership.state != NoState && w.status.ownership.owner != "" && NoFailure(w.status, z)
    && (if PlacementsContain(w.status, z) then PlacedOk(w, z, chart) else UnplacedOk(w, z))
  }

  ghost predicate RoundOk(w: World, z: ZoneId, chart: Chart, r: Round) {
    && ReportOf(r.report, z, w.worker) && !Failing(r.report)
    && (!PlacementsContain(w.status, z) ==> r.spec.strategy.LocalStrategy?)
    && CycleOk(Reconciled(w, z, chart, r), z, chart, r)
  }

  ghost function NextRound(w: World, z: ZoneId, chart: Chart, r: Round): World
    requires RoundOk(w, z, chart, r)
  {
    Cycled(Reconciled(w, z, chart, r), z, chart, r)
  }

  // ---- what a derivation decides for a placed zone ----

  lemma PlacedDecision(s: Status, v: View)
    requires v.Valid() && PlacementsContain(s, v.zone)
    ensures Derive(s, v).Derived? && Derive(s, v).job == LocalNext(Noted(s, v), v).job
    ensures MustUndeploy(Noted(s, v), v) == MustUndeploy(s, v) && PlacementsContain(Noted(s, v), v.zone)
    ensures LocalPart(Noted(s, v), v).1 == LocalNext(Noted(s, v), v)
  {
    NotedFrame(s, v);
    var b := Noted(s, v);
    var (s1, l) := LocalPart(b, v);
    LocalPartFrame(b, v);
    ConcludeFrame(s1, l, v);
    ConcludeJob(s1, l, v);
    PlacedGlobal(s1, v);
    ConcludePlaced(s1, l, v);
  }

  lemma PlacedGlobal(s1: Status, v: View)
    requires s1.ownership.placements.Some?
    ensures GlobalNext(s1, v).job.None? && GlobalNext(s1, v).toAdd.None?
  {}

  // With placements the owner's global step only sets the state; the entry is dropped only when it has no conditions.
  lemma ConcludePlaced(s1: Status, l: NextState, v: View)
    requires s1.ownership.placements.Some?
    ensures Conclude(s1, l, v).Derived? && Conclude(s1, l, v).job == l.job
    ensures HasZone(s1, v.zone) && Own(s1, v.zone).conditions != [] ==> HasZone(Conclude(s1, l, v).status, v.zone)
    ensures LocalUpdated(l) ==> Conclude(s1, l, v).updated
    ensures var n := Conclude(s1, l, v).status;
      HasZone(n, v.zone) ==> forall c :: c in Own(n, v.zone).conditions ==> c in Own(s1, v.zone).conditions
  {
    PlacedGlobal(s1, v);
    OthersLacksZone(s1.zones, v.zone);
    var s2 := if s1.ownership.owner == v.zone then GlobalApplied(s1, v.zone, GlobalNext(s1, v)) else s1;
    assert s2.zones == s1.zones && Own(s2, v.zone) == Own(s1, v.zone);
  }

  lemma NotExhausted(conditions: seq<Condition>, ctype: ConditionType, maxRetries: int)
    requires ctype == DeploymentCondition || ctype == UndeploymentCondition
    requires forall c :: c in conditions ==> !Failing(c)
    ensures !AttemptsExhausted(conditions, ctype, maxRetries)
  {
    var k := TypeIndex(conditions, ctype);
    if k < |conditions| { assert conditions[k] in conditions; }
  }

  // The decision table of a placed zone without failed attempts.
  function Decision(s: Status, v: View): Option<Job>
    requires v.Valid()
  {
    if MustUndeploy(s, v) then
      if v.IsPresent() && !v.IsRunning(UndeployType) then Some(UndeployJob) else None
    else if !v.IsDeployed() then
      if v.IsRunning(DeployType) then None else Some(DeployJob(v.Target()))
    else if v.IsRunning(OperationType) then None else Some(OperationJob(v.active.value))
  }

  ghost predicate QuietView(s: Status, v: View) {
    && v.Valid() && NoFailure(s, v.zone) && PlacementsContain(s, v.zone)
    && (v.running.Some? ==> !Failing(v.running.value.report))
  }

  lemma NotedQuiet(s: Status, v: View)
    requires v.Valid() && NoFailure(s, v.zone) && (v.running.Some? ==> !Failing(v.running.value.report))
    ensures NoFailure(Noted(s, v), v.zone)
  {
    NotedFrame(s, v);
  }

  lemma DecisionIs(s: Status, v: View)
    requires QuietView(s, v)
    ensures Derive(s, v).Derived? && Derive(s, v).job == Decision(s, v)
    ensures Asks(LocalPart(Noted(s, v), v).1, v, Decision(s, v),
                 if MustUndeploy(s, v) || !v.IsDeployed() then v.newVersion else None)
  {
    PlacedDecision(s, v);
    NotedQuiet(s, v);
    NotedFrame(s, v);
    LocalDecision(Noted(s, v), v);
  }

  lemma LocalDecision(b: Status, v: View)
    requires v.Valid() && NoFailure(b, v.zone) && PlacementsContain(b, v.zone)
    ensures Asks(LocalNext(b, v), v, Decision(b, v),
                 if MustUndeploy(b, v) || !v.IsDeployed() then v.newVersion else None)
  {
    var conditions := Own(b, v.zone).conditions;
    if MustUndeploy(b, v) {
      NotExhausted(conditions, UndeploymentCondition, v.spec.maxRetries);
      UndeployHandled(b, v);
    } else if !v.IsDeployed() {
      NotExhausted(conditions, DeploymentCondition, v.spec.maxRetries);
      DeployHandled(b, v);
    } else {
      OperationHandled(b, v);
    }
  }

  // The derived status keeps the zone's entry unless an undeployment runs, and stores the target version exactly
  // when it starts a deployment or undeployment of a new version.
  lemma DerivedEntry(s: Status, v: View)
    requires QuietView(s, v)
    requires Decision(s, v).Some? || v.IsRunning(DeployType) || v.IsRunning(OperationType)
    requires MustUndeploy(s, v) ==> Decision(s, v).Some?
    ensures Derive(s, v).Derived? && HasZone(Derive(s, v).status, v.zone)
  {
    DecisionIs(s, v);
    NotedFrame(s, v);
    var b := Noted(s, v);
    var (s1, l) := LocalPart(b, v);
    LocalPartFrame(b, v);
    if l.job.None? { RunningConditionStays(b, v); }
    ConcludePlaced(s1, l, v);
  }

  // A zone whose deployment or operation job runs keeps that job's condition.
  lemma RunningConditionStays(b: Status, v: View)
    requires v.Valid() && PlacementsContain(b, v.zone) && !MustUndeploy(b, v)
    requires if v.IsDeployed() then v.IsRunning(OperationType) else v.IsRunning(DeployType)
    requires var c := v.running.value.report; HasCondition(Own(b, v.zone).conditions, c.ctype, c.zone)
    ensures Own(LocalPart(b, v).0, v.zone).conditions != []
  {
    LocalPartFrame(b, v);
    var report := v.running.value.report;
    var conditions := Own(b, v.zone).conditions;
    var c := conditions[ConditionIndex(conditions, report.ctype, report.zone)];
    assert c in conditions;
    RemovesOthersOnly(b, v);
    assert c in Own(LocalPart(b, v).0, v.zone).conditions;
  }

  lemma RemovesOthersOnly(b: Status, v: View)
    requires v.Valid() && PlacementsContain(b, v.zone) && !MustUndeploy(b, v)
    requires if v.IsDeployed() then v.IsRunning(OperationType) else v.IsRunning(DeployType)
    ensures forall d :: d in LocalPart(b, v).1.toRemove ==> d.ctype != v.running.value.report.ctype
  {
  }

  // ---- what a reconciliation stores ----

  lemma BumpKeeps(s: Status, z: ZoneId, rv: int)
    ensures var b := BumpZone(s, z, rv);
      && b.ownership == s.ownership && HasZone(b, z) == HasZone(s, z)
      && Own(b, z).chartVersion == Own(s, z).chartVersion && Own(b, z).conditions == Own(s, z).conditions
  {
    if HasZone(s, z) {
      var own := Own(s, z);
      PutOwn(s, z, own.(zoneVersion := if own.zoneVersion >= rv + 1 then own.zoneVersion + 1 else rv + 1));
    }
  }

  lemma {:induction false} MergedElements(conditions: seq<Condition>, news: seq<Condition>)
    ensures forall c :: c in MergeConditions(conditions, news) ==> c in conditions || c in news
    decreases |news|
  {
    if news != [] {
      var next := MergeCondition(conditions, news[0]);
      assert forall c :: c in next ==> c in conditions || c == news[0];
      MergedElements(next, news[1..]);
    }
  }

  // Storing a status derived from the same status: placements stay, no failure appears, and the version is the
  // derived one if the entry was kept.
  lemma MergedFrame(w: World, z: ZoneId, n: Status)
    requires n.ownership.placements == w.status.ownership.placements && NoFailure(w.status, z)
    requires n.ownership.state != NoState && w.status.ownership.state != NoState
    requires HasZone(n, z) ==> NoFailure(n, z)
    ensures var m := Merged(w, z, Some(n));
      && m.live == w.live && m.worker == w.worker
      && m.status.ownership.placements == w.status.ownership.placements && m.status.ownership.state != NoState
      && (w.status.ownership.owner != "" ==> m.status.ownership.owner == w.status.ownership.owner)
      && NoFailure(m.status, z)
      && (HasZone(n, z) ==> Active(m, z) == Own(n, z).chartVersion)
      && (!HasZone(n, z) ==> Active(m, z) == Active(w, z) || Active(m, z).None?)
  {
    var s := MergeStatus(w.status, n, z);
    MergeOwn(w.status, n, z);
    BumpKeeps(s, z, w.rv);
    MergedElements(Own(w.status, z).conditions, Own(n, z).conditions);
  }

  // ---- one reconciliation of a placed zone ----

  // What a reconciliation makes of its derivation.
  ghost function Outcome(w: World, z: ZoneId, d: Phase): World {
    if d.Decided? then Merged(w, z, d.status).(worker := Scheduled(w.worker, d.job)) else w
  }

  lemma ReconciledIs(w: World, z: ZoneId, chart: Chart, r: Round)
    requires ReportOf(r.report, z, w.worker)
    ensures var v := Seen(w, z, chart, r);
      ShouldHandle(w.status, v) && Derive(w.status, v).Derived? ==>
        var d := Derive(w.status, v);
        Reconciled(w, z, chart, r) == Outcome(w, z, Decided(0, if d.updated then Some(d.status) else None, d.job))
  {}

  lemma SeenIs(w: World, z: ZoneId, chart: Chart, r: Round)
    requires ReportOf(r.report, z, w.worker) && !Failing(r.report)
    requires PlacementsContain(w.status, z) && NoFailure(w.status, z)
    ensures QuietView(w.status, Seen(w, z, chart, r)) && ShouldHandle(w.status, Seen(w, z, chart, r))
  {}

  // The decided job and, unless an undeployment goes on, the version stored with it.
  lemma ReconcileOutcome(w: World, z: ZoneId, chart: Chart, r: Round)
    requires Good(w, z, chart) && PlacementsContain(w.status, z) && ReportOf(r.report, z, w.worker)
    requires !Failing(r.report)
    ensures var v, m := Seen(w, z, chart, r), Reconciled(w, z, chart, r);
      var job := Decision(w.status, v);
      && m.live == w.live && m.worker == Scheduled(w.worker, job)
      && PlacementsContain(m.status, z) && m.status.ownership.state != NoState
      && m.status.ownership.owner == w.status.ownership.owner
      && NoFailure(m.status, z)
      && (job.Some? && !job.value.OperationJob? ==> Active(m, z) == Some(v.Target()))
      && (if MustUndeploy(w.status, v) && job.None? then Active(m, z) == Active(w, z) || Active(m, z).None?
          else job.None? || job.value.OperationJob? ==> Active(m, z) == Active(w, z))
  {
    var v := Seen(w, z, chart, r);
    var s := w.status;
    SeenIs(w, z, chart, r);
    DecisionIs(s, v);
    DeriveFrame(s, v);
    DerivedQuiet(s, v);
    var n, l := Derive(s, v).status, LocalPart(Noted(s, v), v).1;
    if !(MustUndeploy(s, v) && Decision(s, v).None?) { DerivedEntry(s, v); }
    MergedFrame(w, z, n);
    UpdatedWithJob(s, v);
    ReconciledIs(w, z, chart, r);
    assert Claimed(s, z) == s;
  }

  lemma UpdatedWithJob(s: Status, v: View)
    requires QuietView(s, v)
    ensures Derive(s, v).Derived? && (Decision(s, v).Some? ==> Derive(s, v).updated)
  {
    DecisionIs(s, v);
    var (s1, l) := LocalPart(Noted(s, v), v);
    NotedFrame(s, v);
    LocalPartFrame(Noted(s, v), v);
    ConcludePlaced(s1, l, v);
  }

  lemma DerivedQuiet(s: Status, v: View)
    requires QuietView(s, v)
    ensures Derive(s, v).Derived? && (HasZone(Derive(s, v).status, v.zone) ==> NoFailure(Derive(s, v).status, v.zone))
  {
    NotedQuiet(s, v);
    NotedFrame(s, v);
    LocalQuiet(Noted(s, v), v);
    ConcludePlaced(LocalPart(Noted(s, v), v).0, LocalPart(Noted(s, v), v).1, v);
  }

  lemma LocalQuiet(b: Status, v: View)
    requires v.Valid() && NoFailure(b, v.zone) && PlacementsContain(b, v.zone)
    ensures var (s1, l) := LocalPart(b, v); s1.ownership == b.ownership && NoFailure(s1, v.zone)
  {
    LocalPartFrame(b, v);
    LocalDecision(b, v);
  }

  // ---- faultless rounds keep the invariant ----

  lemma PlacedReconcileKeepsGood(w: World, z: ZoneId, chart: Chart, r: Round)
    requires Good(w, z, chart) && PlacementsContain(w.status, z) && ReportOf(r.report, z, w.worker)
    requires !Failing(r.report)
    ensures Good(Reconciled(w, z, chart, r), z, chart) && PlacementsContain(Reconciled(w, z, chart, r).status, z)
  {
    var v, m := Seen(w, z, chart, r), Reconciled(w, z, chart, r);
    ReconcileOutcome(w, z, chart, r);
    ListedOnly(w, z, chart, r);
    ScheduledOk(w, m, z, chart, v);
  }

  lemma ScheduledOk(w: World, m: World, z: ZoneId, chart: Chart, v: View)
    requires v.Valid() && v.zone == z && PlacedOk(w, z, chart) && v.active == Active(w, z)
    requires v.running.Some? <==> w.worker.Some?
    requires v.running.Some? ==> v.running.value.jobType == w.worker.value.Type()
    requires v.NonActiveVersionsPresent() <==> !Labelled(w, z)
    requires v.IsPresent() <==> Active(w, z).Some? && exists k :: k in w.live && w.live[k] == Active(w, z).value
    requires v.complete <==> Active(w, z).Some? && Complete(w.live, chart, Active(w, z).value)
    requires PlacementsContain(w.status, z)
    requires var job := Decision(w.status, v);
      && m.live == w.live && m.worker == Scheduled(w.worker, job)
      && (job.Some? && !job.value.OperationJob? ==> Active(m, z) == Some(v.Target()))
      && (!(MustUndeploy(w.status, v) && job.None?) && (job.None? || job.value.OperationJob?) ==>
            Active(m, z) == Active(w, z))
    ensures PlacedOk(m, z, chart)
  {
    var job := Decision(w.status, v);
    if w.worker != Some(UndeployJob) { assert Labelled(w, z); }
    if job.Some? && job.value.DeployJob? {
      assert Labelled(w, z) && (w.live != map[] ==> v.newVersion.None?);
    }
  }

  // What the view tells about the labels of the installed resources.
  lemma ListedOnly(w: World, z: ZoneId, chart: Chart, r: Round)
    requires ReportOf(r.report, z, w.worker)
    ensures var v := Seen(w, z, chart, r);
      && (v.NonActiveVersionsPresent() <==> !Labelled(w, z))
      && (v.IsPresent() <==> Active(w, z).Some? && exists k :: k in w.live && w.live[k] == Active(w, z).value)
      && (v.installed == {} <==> w.live == map[])
  {
    var v := Seen(w, z, chart, r);
    assert v.installed == w.live.Values;
    if !Labelled(w, z) {
      var k :| k in w.live && Active(w, z) != Some(w.live[k]);
      assert w.live[k] in v.installed - (if v.active.Some? then {v.active.value} else {});
    }
    if w.live != map[] {
      var k :| k in w.live;
      assert w.live[k] in v.installed;
    }
  }

  ghost predicate Labelled(w: World, z: ZoneId) {
    forall k :: k in w.live ==> Active(w, z) == Some(w.live[k])
  }

  // A job's report keeps ownership and the stored version; unless it reports a failure, there is none.
  lemma ToldFrame(w: World, z: ZoneId, t: JobType, c: Condition)
    requires c.zone == z
    ensures var m := Told(w, z, t, c);
      && m.live == w.live && m.worker == w.worker && Active(m, z) == Active(w, z)
      && m.status.ownership == (if t.PlacementType? then w.status.ownership.(placements := Some([Placement(z, [])]))
                                else w.status.ownership)
      && (NoFailure(w.status, z) && !Failing(c) ==> NoFailure(m.status, z))
  {
    ReportFrame(w.status, z, t, c);
    BumpKeeps(JobReport(w.status, z, t, c).1, z, w.rv);
  }

  lemma ReportFrame(s: Status, z: ZoneId, t: JobType, c: Condition)
    requires c.zone == z
    ensures var n := JobReport(s, z, t, c).1;
      && Own(n, z).chartVersion == Own(s, z).chartVersion
      && n.ownership == (if t.PlacementType? then s.ownership.(placements := Some([Placement(z, [])])) else s.ownership)
      && (NoFailure(s, z) && !Failing(c) ==> NoFailure(n, z))
  {
    var base := if t.PlacementType? then s.(ownership := s.ownership.(placements := Some([Placement(z, [])]))) else s;
    assert Own(base, z) == Own(s, z);
    var s1 := AddOrUpdate(base, z, c);
    PutOwn(base, z, Own(base, z).(conditions := Upsert(Own(base, z).conditions, c)));
    assert forall d :: d in Own(s1, z).conditions ==> d in Own(s, z).conditions || d == c;
    DropAllFrame(s1, z, Superseded(t));
    assert JobReport(s, z, t, c).1 == if t.PlacementType? then s1 else Store.DropAll(s1, z, Superseded(t));
  }

  lemma {:induction false} DropAllFrame(s: Status, z: ZoneId, types: seq<ConditionType>)
    ensures var r := Store.DropAll(s, z, types);
      && r.ownership == s.ownership && Own(r, z).chartVersion == Own(s, z).chartVersion
      && (NoFailure(s, z) ==> NoFailure(r, z))
    decreases |types|
  {
    if types != [] {
      if HasZone(s, z) {
        DropElements(Own(s, z).conditions, types[0], z);
        PutOwn(s, z, Own(s, z).(conditions := Drop(Own(s, z).conditions, types[0], z)));
      }
      DropAllFrame(WithoutCondition(s, z, types[0], z), z, types[1..]);
    }
  }

  lemma CycleKeepsGood(m: World, z: ZoneId, chart: Chart, r: Round)
    requires Good(m, z, chart) && CycleOk(m, z, chart, r)
    ensures Good(Cycled(m, z, chart, r), z, chart)
    ensures var n := Cycled(m, z, chart, r);
      && (PlacementsContain(m.status, z) ==> PlacementsContain(n.status, z) && Active(n, z) == Active(m, z))
      && (m.worker == Some(PlacementJob) ==> PlacementsContain(n.status, z))
      && n.status.ownership.owner == m.status.ownership.owner
  {
    if m.worker.Some? {
      var n, t := Cycled(m, z, chart, r), m.worker.value.Type();
      var told := Told(m, z, t, r.told);
      ToldFrame(m, z, t, r.told);
      assert Active(n, z) == Active(m, z) && NoFailure(n.status, z) && n.status.ownership.state != NoState;
      if m.worker == Some(PlacementJob) {
        PlacedByJob(n.status, z);
      } else {
        assert PlacementsContain(m.status, z) && n.status.ownership.placements == m.status.ownership.placements;
        CycleKeepsPlacedOk(m, z, chart, r);
      }
    }
  }

  lemma CycleKeepsPlacedOk(m: World, z: ZoneId, chart: Chart, r: Round)
    requires PlacedOk(m, z, chart) && m.worker.Some? && CycleOk(m, z, chart, r)
    requires Active(Cycled(m, z, chart, r), z) == Active(m, z)
    ensures PlacedOk(Cycled(m, z, chart, r), z, chart)
  {
    var n := Cycled(m, z, chart, r);
    match m.worker.value
    case DeployJob(v) =>
      assert n.live == Synced(m.live, r.applied, r.removed, v);
      assert forall k :: k in n.live ==> n.live[k] == v;
    case UndeployJob =>
      assert n.live == m.live - r.removed;
    case OperationJob(v) =>
      assert n.live == m.live;
  }

  lemma PlacedByJob(s: Status, z: ZoneId)
    requires s.ownership.placements == Some([Placement(z, [])])
    ensures PlacementsContain(s, z)
  {
    assert s.ownership.placements.value[0].zone == z;
  }

  // The owner of an unplaced application with nothing installed puts a placement job to work.
  lemma UnplacedReconcile(w: World, z: ZoneId, chart: Chart, r: Round)
    requires Good(w, z, chart) && !PlacementsContain(w.status, z) && r.spec.strategy.LocalStrategy?
    requires ReportOf(r.report, z, w.worker) && !Failing(r.report)
    ensures var m := Reconciled(w, z, chart, r);
      Good(m, z, chart) && !PlacementsContain(m.status, z) && m.worker == Some(PlacementJob)
  {
    var v := Seen(w, z, chart, r);
    ListedOnly(w, z, chart, r);
    UnplacedDerive(w.status, v);
    MergedFrame(w, z, Derive(w.status, v).status);
  }

  lemma UnplacedDerive(s: Status, v: View)
    requires v.Valid() && v.installed == {} && v.spec.strategy.LocalStrategy?
    requires s.ownership.placements.None? && s.ownership.state != NoState && s.ownership.owner == v.zone
    requires Own(s, v.zone).chartVersion.None?
    ensures var d := Derive(s, v);
      && d.Derived? && d.job == Some(PlacementJob) && d.updated
      && d.status.ownership == s.ownership.(state := d.status.ownership.state) && d.status.ownership.state != NoState
      && HasZone(d.status, v.zone) && Own(d.status, v.zone).chartVersion.None? && NoFailure(d.status, v.zone)
  {
    NotedFrame(s, v);
    var b := Noted(s, v);
    var (s1, l) := LocalPart(b, v);
    UnplacedLocal(b, v);
    UnplacedConclude(s1, l, v);
  }

  lemma UnplacedLocal(b: Status, v: View)
    requires v.Valid() && b.ownership.placements.None? && v.installed == {} && !v.IsPresent()
    requires Own(b, v.zone).chartVersion.None?
    ensures var (s1, l) := LocalPart(b, v);
      && l.job.None? && Own(s1, v.zone).conditions == [] && Own(s1, v.zone).chartVersion.None?
      && s1.ownership == b.ownership
  {
    LocalPartFrame(b, v);
    if HasZone(b, v.zone) { RemoveAllFrame(b, v.zone, Own(b, v.zone).conditions); }
    NoElements(Own(LocalPart(b, v).0, v.zone).conditions);
  }

  lemma UnplacedConclude(s1: Status, l: NextState, v: View)
    requires s1.ownership.placements.None? && s1.ownership.owner == v.zone && v.spec.strategy.LocalStrategy?
    requires l.job.None? && Own(s1, v.zone).conditions == []
    ensures var d := Conclude(s1, l, v);
      && d.Derived? && d.job == Some(PlacementJob) && d.updated
      && d.status.ownership == s1.ownership.(state := Placing)
      && HasZone(d.status, v.zone) && Own(d.status, v.zone).chartVersion == Own(s1, v.zone).chartVersion
      && Own(d.status, v.zone).conditions == [FirstReport(PlacementType, v.zone, v.now)]
  {
    WithConditionFrame(s1, v.zone, FirstReport(PlacementType, v.zone, v.now));
  }

  // Every faultless round keeps the invariant, whatever the target of each round.
  lemma RoundKeepsGood(w: World, z: ZoneId, chart: Chart, r: Round)
    requires Good(w, z, chart) && RoundOk(w, z, chart, r)
    ensures Good(NextRound(w, z, chart, r), z, chart) && PlacementsContain(NextRound(w, z, chart, r).status, z)
  {
    if PlacementsContain(w.status, z) { PlacedReconcileKeepsGood(w, z, chart, r); }
    else { UnplacedReconcile(w, z, chart, r); }
    CycleKeepsGood(Reconciled(w, z, chart, r), z, chart, r);
  }

  lemma ClaimedIsGood(z: ZoneId, rv: int, chart: Chart)
    requires z != ""
    ensures Good(World(rv, Claimed(EMPTY_STATUS, z), map[], None), z, chart)
  {}

  // ---- the measure ----

  ghost predicate Up(w: World, z: ZoneId, target: Version) {
    Active(w, z).Some? && target.Equal(Active(w, z).value)
  }

  ghost function Missing(live: map<ResourceKey, Version>, chart: Chart, v: Version): set<ResourceKey> {
    set k | k in chart(v) && !(k in live && live[k] == v)
  }

  // Exactly the resources of the stored version, which is the target, are installed, and its operation job runs.
  ghost predicate Settled(w: World, z: ZoneId, chart: Chart, target: Version) {
    && Up(w, z, target)
    && w.live == (map k | k in chart(Active(w, z).value) :: Active(w, z).value)
    && w.worker == Some(OperationJob(Active(w, z).value))
  }

  ghost predicate Fits(chart: Chart, v: Version, size: nat) { chart(v) != {} && |chart(v)| <= size }

  // The chart of the target, and of the stored version if that is the target under other metadata, has between 1
  // and `size` resources.
  ghost predicate ChartsFit(w: World, z: ZoneId, chart: Chart, target: Version, size: nat) {
    Fits(chart, target, size) && (Up(w, z, target) ==> Fits(chart, Active(w, z).value, size))
  }

  // Rounds left: placement, the sync of an outdated version that still installs its first resource, the undeployment,
  // the start of the deployment, its missing resources, the start of the operation.
  ghost function Budget(w: World, z: ZoneId, chart: Chart, target: Version, size: nat): nat {
    if !PlacementsContain(w.status, z) then size + 3
    else if Up(w, z, target) && Labelled(w, z) then
      var v := Active(w, z).value;
      if !Complete(w.live, chart, v) then 1 + |Missing(w.live, chart, v)|
      else if w.worker == Some(OperationJob(v)) then 0 else 1
    else if w.live == map[] then
      size + 2 + (if w.worker.Some? && w.worker.value.DeployJob? then 2 + |chart(w.worker.value.version)| else 0)
    else size + 2 + |w.live| + (if w.worker == Some(UndeployJob) then 0 else 1)
  }

  lemma SettledIsZero(w: World, z: ZoneId, chart: Chart, target: Version, size: nat)
    requires Good(w, z, chart)
    ensures Budget(w, z, chart, target, size) == 0 <==> Settled(w, z, chart, target)
  {
    if Up(w, z, target) && Labelled(w, z) && Complete(w.live, chart, Active(w, z).value) {
      var v := Active(w, z).value;
      var all := map k | k in chart(v) :: v;
      assert forall k :: k in w.live <==> k in all;
      assert w.live == all;
    }
  }

  lemma Subset<T>(a: set<T>, b: set<T>)
    requires a <= b
    ensures |a| <= |b| && (a != b ==> |a| < |b|)
  {
    assert b == a + (b - a);
  }

  lemma LiveInChart(live: map<ResourceKey, Version>, chart: Chart, v: Version)
    requires FromChart(live, chart) && Only(live, v)
    ensures live.Keys <= chart(v)
  {
    forall k | k in live ensures k in chart(v) { assert live[k] == v; }
  }

  lemma SyncedFrame(live: map<ResourceKey, Version>, applied: set<ResourceKey>, pruned: set<ResourceKey>,
                    all: set<ResourceKey>, v: Version)
    requires Only(live, v) && live.Keys <= all && applied <= all && pruned !! all
    ensures var after := Synced(live, applied, pruned, v);
      && Only(after, v) && after.Keys == live.Keys + applied && |after| <= |all|
  {
    var after := Synced(live, applied, pruned, v);
    assert after.Keys == live.Keys + applied;
    Subset(after.Keys, all);
    assert |after| == |after.Keys|;
  }

  // With one version installed, what is missing is what is not installed.
  lemma MissingKeys(live: map<ResourceKey, Version>, chart: Chart, v: Version)
    requires Only(live, v)
    ensures Missing(live, chart, v) == chart(v) - live.Keys
    ensures Complete(live, chart, v) <==> chart(v) <= live.Keys
  {}

  // A synchronization of the installed version that applies a missing resource.
  lemma SyncProgress(live: map<ResourceKey, Version>, applied: set<ResourceKey>, pruned: set<ResourceKey>,
                     chart: Chart, v: Version)
    requires FromChart(live, chart) && Only(live, v) && applied <= chart(v) && pruned !! chart(v)
    requires !Complete(live, chart, v) ==> exists k :: k in applied && !(k in live && live[k] == v)
    ensures var after := Synced(live, applied, pruned, v);
      && |after| <= |chart(v)| && (chart(v) != {} ==> after != map[])
      && |Missing(after, chart, v)| <= |chart(v)|
      && (Complete(after, chart, v) || |Missing(after, chart, v)| < |Missing(live, chart, v)|)
  {
    var after := Synced(live, applied, pruned, v);
    LiveInChart(live, chart, v);
    SyncedFrame(live, applied, pruned, chart(v), v);
    MissingKeys(live, chart, v);
    MissingKeys(after, chart, v);
    FewerLeft(chart(v), live.Keys, after.Keys);
  }

  lemma FewerLeft(all: set<ResourceKey>, before: set<ResourceKey>, after: set<ResourceKey>)
    requires before <= after <= all
    requires all <= before || before != after
    ensures |all - after| <= |all| && (all <= after || |all - after| < |all - before|)
    ensures all != {} ==> after != {}
  {
    Subset(all - after, all);
    Subset(all - after, all - before);
    if before != after {
      var k :| k in after && k !in before;
      assert k in (all - before) && k !in (all - after);
    }
  }

  lemma DeployCycle(m: World, z: ZoneId, chart: Chart, r: Round, v: Version)
    requires Good(m, z, chart) && PlacementsContain(m.status, z)
    requires m.worker == Some(DeployJob(v)) && CycleOk(m, z, chart, r)
    ensures var n := Cycled(m, z, chart, r);
      && Active(n, z) == Some(v) && Labelled(n, z) && |n.live| <= |chart(v)|
      && (chart(v) != {} ==> n.live != map[])
      && |Missing(n.live, chart, v)| <= |chart(v)|
      && (Complete(n.live, chart, v) || |Missing(n.live, chart, v)| < |Missing(m.live, chart, v)|)
      && (n.worker.None? || n.worker == m.worker) && (n.live == map[] ==> n.worker.None?)
  {
    CycleKeepsGood(m, z, chart, r);
    SyncProgress(m.live, r.applied, r.removed, chart, v);
  }

  lemma UndeployCycle(m: World, z: ZoneId, chart: Chart, r: Round)
    requires Good(m, z, chart) && PlacementsContain(m.status, z)
    requires m.worker == Some(UndeployJob) && CycleOk(m, z, chart, r)
    ensures var n := Cycled(m, z, chart, r);
      && Active(n, z) == Active(m, z) && n.live.Keys <= m.live.Keys && |n.live| <= |m.live|
      && (m.live != map[] ==> |n.live| < |m.live|)
      && n.worker == (if n.live == map[] then None else m.worker)
  {
    CycleKeepsGood(m, z, chart, r);
    var n := Cycled(m, z, chart, r);
    assert n.live.Keys == m.live.Keys - r.removed;
    Subset(n.live.Keys, m.live.Keys);
    assert |n.live| == |n.live.Keys| && |m.live| == |m.live.Keys|;
  }

  lemma OperationCycle(m: World, z: ZoneId, chart: Chart, r: Round, v: Version)
    requires Good(m, z, chart) && PlacementsContain(m.status, z)
    requires m.worker == Some(OperationJob(v)) && CycleOk(m, z, chart, r)
    ensures var n := Cycled(m, z, chart, r);
      && Active(n, z) == Active(m, z) == Some(v) && n.live == m.live && Labelled(n, z)
      && n.worker == (if r.target.Equal(v) then m.worker else None)
  {
    CycleKeepsGood(m, z, chart, r);
  }

  // The decision of a placed zone, read off the measure's cases.
  lemma DecisionOnWorld(w: World, z: ZoneId, chart: Chart, r: Round)
    requires Good(w, z, chart) && PlacementsContain(w.status, z) && ReportOf(r.report, z, w.worker)
    ensures var job := Decision(w.status, Seen(w, z, chart, r));
      && (!Labelled(w, z) && w.worker == Some(UndeployJob) ==> job.None?)
      && (Labelled(w, z) && w.live == map[] ==>
            job == if w.worker.Some? && w.worker.value.DeployJob? then None
                   else Some(DeployJob(Seen(w, z, chart, r).Target())))
      && (Labelled(w, z) && w.live != map[] && !Up(w, z, r.target) ==>
            job == if w.worker == Some(UndeployJob) then None else Some(UndeployJob))
      && (Labelled(w, z) && w.live != map[] && Up(w, z, r.target) ==>
            var v := Active(w, z).value;
            job == if !Complete(w.live, chart, v) then
                     if w.worker.Some? && w.worker.value.DeployJob? then None else Some(DeployJob(v))
                   else if w.worker.Some? && w.worker.value.OperationJob? then None else Some(OperationJob(v)))
  {
    ListedOnly(w, z, chart, r);
  }

  lemma UnplacedSpends(w: World, z: ZoneId, chart: Chart, r: Round, size: nat)
    requires Good(w, z, chart) && RoundOk(w, z, chart, r) && !PlacementsContain(w.status, z)
    ensures Budget(NextRound(w, z, chart, r), z, chart, r.target, size) < Budget(w, z, chart, r.target, size)
  {
    UnplacedReconcile(w, z, chart, r);
    PlacementCycle(Reconciled(w, z, chart, r), z, chart, r);
    RoundKeepsGood(w, z, chart, r);
    JustPlaced(NextRound(w, z, chart, r), z, chart, r.target, size);
  }

  lemma PlacementCycle(m: World, z: ZoneId, chart: Chart, r: Round)
    requires m.worker == Some(PlacementJob) && CycleOk(m, z, chart, r) && NoFailure(m.status, z)
    ensures var n := Cycled(m, z, chart, r); n.live == m.live && n.worker.None? && Active(n, z) == Active(m, z)
  {
    ToldFrame(m, z, PlacementType, r.told);
  }

  lemma JustPlaced(n: World, z: ZoneId, chart: Chart, target: Version, size: nat)
    requires PlacementsContain(n.status, z) && n.live == map[] && n.worker.None? && Active(n, z).None?
    ensures Budget(n, z, chart, target, size) == size + 2
  {}

  // A round keeps the stored version, clears it, or stores its target; it keeps the owner.
  lemma StoredVersion(w: World, z: ZoneId, chart: Chart, r: Round)
    requires Good(w, z, chart) && RoundOk(w, z, chart, r)
    ensures var now := Active(NextRound(w, z, chart, r), z);
      now == Active(w, z) || now.None? || now == Some(r.target)
    ensures NextRound(w, z, chart, r).status.ownership.owner == w.status.ownership.owner
  {
    var m := Reconciled(w, z, chart, r);
    if PlacementsContain(w.status, z) {
      ReconcileOutcome(w, z, chart, r);
      PlacedReconcileKeepsGood(w, z, chart, r);
      CycleKeepsGood(m, z, chart, r);
    } else {
      UnplacedReconcile(w, z, chart, r);
      PlacementCycle(m, z, chart, r);
    }
  }

  lemma ChartsStayFit(w: World, z: ZoneId, chart: Chart, r: Round, size: nat)
    requires Good(w, z, chart) && RoundOk(w, z, chart, r) && ChartsFit(w, z, chart, r.target, size)
    ensures ChartsFit(NextRound(w, z, chart, r), z, chart, r.target, size)
  {
    StoredVersion(w, z, chart, r);
  }

  lemma OutdatedReconcile(w: World, z: ZoneId, chart: Chart, r: Round)
    requires Good(w, z, chart) && ReportOf(r.report, z, w.worker) && !Failing(r.report)
    requires PlacementsContain(w.status, z)
    requires w.live != map[] && !(Up(w, z, r.target) && Labelled(w, z))
    ensures var m := Reconciled(w, z, chart, r); m.live == w.live && m.worker == Some(UndeployJob)
  {
    DecisionOnWorld(w, z, chart, r);
    ReconcileOutcome(w, z, chart, r);
  }

  // A zone that installs something outdated, or mixes versions, undeploys.
  lemma OutdatedSpends(w: World, z: ZoneId, chart: Chart, r: Round, size: nat)
    requires Good(w, z, chart) && RoundOk(w, z, chart, r) && PlacementsContain(w.status, z)
    requires ChartsFit(w, z, chart, r.target, size)
    requires w.live != map[] && !(Up(w, z, r.target) && Labelled(w, z))
    ensures Budget(NextRound(w, z, chart, r), z, chart, r.target, size) < Budget(w, z, chart, r.target, size)
  {
    var m, n := Reconciled(w, z, chart, r), NextRound(w, z, chart, r);
    OutdatedReconcile(w, z, chart, r);
    PlacedReconcileKeepsGood(w, z, chart, r);
    RoundKeepsGood(w, z, chart, r);
    UndeployCycle(m, z, chart, r);
    ChartsStayFit(w, z, chart, r, size);
    UndeployingBudget(n, z, chart, r.target, size);
    assert Budget(w, z, chart, r.target, size) >= size + 2 + |w.live|;
  }

  lemma UndeployingBudget(n: World, z: ZoneId, chart: Chart, target: Version, size: nat)
    requires PlacementsContain(n.status, z) && ChartsFit(n, z, chart, target, size)
    requires n.worker == if n.live == map[] then None else Some(UndeployJob)
    ensures Budget(n, z, chart, target, size) <= size + 2 + |n.live|
  {
    if Up(n, z, target) { MissingBounded(n, z, chart, target, size); }
  }

  lemma MissingBounded(n: World, z: ZoneId, chart: Chart, target: Version, size: nat)
    requires ChartsFit(n, z, chart, target, size) && Up(n, z, target)
    ensures |Missing(n.live, chart, Active(n, z).value)| <= size
  {
    var v := Active(n, z).value;
    Subset(Missing(n.live, chart, v), chart(v));
  }

  // A zone with nothing installed starts deploying the target, once an outdated deployment has given it something
  // to undeploy or has nothing to install.
  lemma EmptySpends(w: World, z: ZoneId, chart: Chart, r: Round, size: nat)
    requires Good(w, z, chart) && RoundOk(w, z, chart, r) && PlacementsContain(w.status, z)
    requires ChartsFit(w, z, chart, r.target, size)
    requires w.live == map[] && !Up(w, z, r.target)
    ensures Budget(NextRound(w, z, chart, r), z, chart, r.target, size) < Budget(w, z, chart, r.target, size)
  {
    var m, n := Reconciled(w, z, chart, r), NextRound(w, z, chart, r);
    PlacedReconcileKeepsGood(w, z, chart, r);
    RoundKeepsGood(w, z, chart, r);
    EmptyReconcile(w, z, chart, r);
    var v := m.worker.value.version;
    DeployCycle(m, z, chart, r, v);
    ChartsStayFit(w, z, chart, r, size);
    DeployingBudget(n, z, chart, r.target, size, v);
    PrecedenceFlip(r.target, r.target);
  }

  lemma MissingSome(live: map<ResourceKey, Version>, chart: Chart, v: Version)
    requires !Complete(live, chart, v)
    ensures |Missing(live, chart, v)| > 0
  {
    var k :| k in chart(v) && !(k in live && live[k] == v);
    assert k in Missing(live, chart, v);
  }

  lemma DeployingBudget(n: World, z: ZoneId, chart: Chart, target: Version, size: nat, v: Version)
    requires PlacementsContain(n.status, z) && ChartsFit(n, z, chart, target, size)
    requires Active(n, z) == Some(v) && Labelled(n, z) && (n.live == map[] ==> n.worker.None?)
    ensures Budget(n, z, chart, target, size) <= if target.Equal(v) then size + 1 else size + 3 + |n.live|
    ensures target.Equal(v) ==>
      Budget(n, z, chart, target, size) <=
        if Complete(n.live, chart, v) then 1 else 1 + |Missing(n.live, chart, v)|
  {
    if target.Equal(v) {
      MissingBounded(n, z, chart, target, size);
    }
  }

  lemma EmptyReconcile(w: World, z: ZoneId, chart: Chart, r: Round)
    requires Good(w, z, chart) && ReportOf(r.report, z, w.worker) && !Failing(r.report)
    requires PlacementsContain(w.status, z)
    requires w.live == map[] && !Up(w, z, r.target)
    ensures var m := Reconciled(w, z, chart, r);
      m.live == map[] && m.worker ==
        if w.worker.Some? && w.worker.value.DeployJob? then w.worker else Some(DeployJob(r.target))
  {
    DecisionOnWorld(w, z, chart, r);
    ReconcileOutcome(w, z, chart, r);
  }

  // A zone on its way installs a missing resource, then starts its operation, then stays.
  lemma UpSpends(w: World, z: ZoneId, chart: Chart, r: Round, size: nat)
    requires Good(w, z, chart) && RoundOk(w, z, chart, r) && PlacementsContain(w.status, z)
    requires ChartsFit(w, z, chart, r.target, size) && Up(w, z, r.target) && Labelled(w, z)
    ensures var n := NextRound(w, z, chart, r);
      var before, after := Budget(w, z, chart, r.target, size), Budget(n, z, chart, r.target, size);
      after < before || (before == after == 0 && n.live == w.live && Active(n, z) == Active(w, z))
  {
    var m, n := Reconciled(w, z, chart, r), NextRound(w, z, chart, r);
    PlacedReconcileKeepsGood(w, z, chart, r);
    RoundKeepsGood(w, z, chart, r);
    UpReconcile(w, z, chart, r);
    var v := Active(w, z).value;
    if Complete(w.live, chart, v) {
      OperationCycle(m, z, chart, r, v);
    } else {
      DeployCycle(m, z, chart, r, v);
      ChartsStayFit(w, z, chart, r, size);
      DeployingBudget(n, z, chart, r.target, size, v);
      MissingSome(w.live, chart, v);
    }
  }

  lemma UpReconcile(w: World, z: ZoneId, chart: Chart, r: Round)
    requires Good(w, z, chart) && ReportOf(r.report, z, w.worker) && !Failing(r.report)
    requires PlacementsContain(w.status, z)
    requires Up(w, z, r.target) && Labelled(w, z) && chart(Active(w, z).value) != {}
    ensures var m, v := Reconciled(w, z, chart, r), Active(w, z).value;
      && m.live == w.live && Active(m, z) == Active(w, z)
      && m.worker == Some(if Complete(w.live, chart, v) then OperationJob(v) else DeployJob(v))
  {
    DecisionOnWorld(w, z, chart, r);
    ReconcileOutcome(w, z, chart, r);
    if Complete(w.live, chart, Active(w, z).value) {
      var k :| k in chart(Active(w, z).value);
      assert k in w.live;
    }
  }

  // ---- convergence ----

  // Every faultless round spends part of the budget until nothing is left; then nothing changes any more.
  lemma RoundSpends(w: World, z: ZoneId, chart: Chart, r: Round, size: nat)
    requires Good(w, z, chart) && RoundOk(w, z, chart, r)
    requires ChartsFit(w, z, chart, r.target, size)
    ensures var n := NextRound(w, z, chart, r);
      var before, after := Budget(w, z, chart, r.target, size), Budget(n, z, chart, r.target, size);
      after < before || (before == after == 0 && n.live == w.live && Active(n, z) == Active(w, z))
  {
    if !PlacementsContain(w.status, z) { UnplacedSpends(w, z, chart, r, size); }
    else if Up(w, z, r.target) && Labelled(w, z) { UpSpends(w, z, chart, r, size); }
    else if w.live != map[] { OutdatedSpends(w, z, chart, r, size); }
    else { EmptySpends(w, z, chart, r, size); }
  }

  ghost predicate Leads(w: World, r: Round, n: World, z: ZoneId, chart: Chart, target: Version) {
    RoundOk(w, z, chart, r) && r.target == target && n == NextRound(w, z, chart, r)
  }

  ghost predicate Chained<W(!new), R(!new)>(worlds: seq<W>, rounds: seq<R>, leads: (W, R, W) -> bool) {
    && |worlds| == |rounds| + 1
    && forall i {:trigger rounds[i]} :: 0 <= i < |rounds| ==> leads(worlds[i], rounds[i], worlds[i + 1])
  }

  ghost function Leading(z: ZoneId, chart: Chart, target: Version): (World, Round, World) -> bool {
    (w, r, n) => Leads(w, r, n, z, chart, target)
  }

  // Worlds joined by faultless rounds with one target: round `i` leads from world `i` to world `i + 1`.
  ghost predicate Faultless(worlds: seq<World>, rounds: seq<Round>, z: ZoneId, chart: Chart, target: Version) {
    Chained(worlds, rounds, Leading(z, chart, target))
  }

  // What one round does to the measure: it goes down, or is zero and the zone rests.
  ghost predicate Progress(w: World, n: World, z: ZoneId, chart: Chart, target: Version, size: nat) {
    && Good(n, z, chart) && PlacementsContain(n.status, z) && ChartsFit(n, z, chart, target, size)
    && var before, after := Budget(w, z, chart, target, size), Budget(n, z, chart, target, size);
       || after < before
       || (before == after == 0 && n.live == w.live && n.worker == w.worker && Active(n, z) == Active(w, z))
  }

  lemma RoundProgress(w: World, z: ZoneId, chart: Chart, r: Round, size: nat)
    requires Good(w, z, chart) && RoundOk(w, z, chart, r)
    requires ChartsFit(w, z, chart, r.target, size)
    ensures Progress(w, NextRound(w, z, chart, r), z, chart, r.target, size)
  {
    RoundKeepsGood(w, z, chart, r);
    ChartsStayFit(w, z, chart, r, size);
    RoundSpends(w, z, chart, r, size);
    SettledIsZero(w, z, chart, r.target, size);
    SettledIsZero(NextRound(w, z, chart, r), z, chart, r.target, size);
  }

  lemma ProgressAt(worlds: seq<World>, rounds: seq<Round>, z: ZoneId, chart: Chart, target: Version, size: nat, i: nat)
    requires Faultless(worlds, rounds, z, chart, target)
    requires i < |rounds| && Good(worlds[i], z, chart) && ChartsFit(worlds[i], z, chart, target, size)
    ensures Progress(worlds[i], worlds[i + 1], z, chart, target, size)
  {
    RoundProgress(worlds[i], z, chart, rounds[i], size);
  }

  // Each round takes at least one from the budget.
  lemma {:induction false} BudgetSpent(worlds: seq<World>, rounds: seq<Round>, z: ZoneId, chart: Chart,
                                       target: Version, size: nat, i: nat)
    requires Faultless(worlds, rounds, z, chart, target)
    requires Good(worlds[0], z, chart) && ChartsFit(worlds[0], z, chart, target, size) && i <= |rounds|
    ensures Good(worlds[i], z, chart) && ChartsFit(worlds[i], z, chart, target, size)
    ensures i > 0 ==> PlacementsContain(worlds[i].status, z)
    ensures var start, now := Budget(worlds[0], z, chart, target, size), Budget(worlds[i], z, chart, target, size);
      now <= if i < start then start - i else 0
    decreases i
  {
    if i > 0 {
      BudgetSpent(worlds, rounds, z, chart, target, size, i - 1);
      ProgressAt(worlds, rounds, z, chart, target, size, i - 1);
    }
  }

  // Faultless rounds with a fixed target settle the zone on it within the budget, and from then on it is settled
  // in every world, however many more rounds follow.
  lemma Converges(worlds: seq<World>, rounds: seq<Round>, z: ZoneId, chart: Chart, target: Version, size: nat, i: nat)
    requires Faultless(worlds, rounds, z, chart, target)
    requires Good(worlds[0], z, chart) && ChartsFit(worlds[0], z, chart, target, size)
    requires Budget(worlds[0], z, chart, target, size) <= i < |worlds|
    ensures Settled(worlds[i], z, chart, target)
  {
    BudgetSpent(worlds, rounds, z, chart, target, size, i);
    SettledIsZero(worlds[i], z, chart, target, size);
  }

  // A settled zone keeps its stored version, its resources and its job through all further rounds.
  lemma {:induction false} SettledStays(worlds: seq<World>, rounds: seq<Round>, z: ZoneId, chart: Chart,
                                        target: Version,
                                        size: nat, i: nat, j: nat)
    requires Faultless(worlds, rounds, z, chart, target)
    requires Good(worlds[0], z, chart) && ChartsFit(worlds[0], z, chart, target, size)
    requires Budget(worlds[0], z, chart, target, size) <= i <= j < |worlds|
    ensures var w, n := worlds[i], worlds[j];
      n.live == w.live && n.worker == w.worker && Active(n, z) == Active(w, z)
    decreases j - i
  {
    if i < j {
      BudgetSpent(worlds, rounds, z, chart, target, size, i);
      ProgressAt(worlds, rounds, z, chart, target, size, i);
      SettledStays(worlds, rounds, z, chart, target, size, i + 1, j);
    }
  }

  // Along faultless rounds the invariant holds, and the stored version is the first one, none, or the target.
  lemma {:induction false} StoredAlong(worlds: seq<World>, rounds: seq<Round>, z: ZoneId, chart: Chart,
                                       target: Version, i: nat)
    requires Faultless(worlds, rounds, z, chart, target) && Good(worlds[0], z, chart) && i < |worlds|
    ensures Good(worlds[i], z, chart) && (i > 0 ==> PlacementsContain(worlds[i].status, z))
    ensures var now := Active(worlds[i], z); now == Active(worlds[0], z) || now.None? || now == Some(target)
    ensures worlds[i].status.ownership.owner == worlds[0].status.ownership.owner
    decreases i
  {
    if i > 0 {
      StoredAlong(worlds, rounds, z, chart, target, i - 1);
      StoredAt(worlds, rounds, z, chart, target, i - 1);
    }
  }

  lemma StoredAt(worlds: seq<World>, rounds: seq<Round>, z: ZoneId, chart: Chart, target: Version, i: nat)
    requires Faultless(worlds, rounds, z, chart, target) && i < |rounds| && Good(worlds[i], z, chart)
    ensures Good(worlds[i + 1], z, chart) && PlacementsContain(worlds[i + 1].status, z)
    ensures var now := Active(worlds[i + 1], z); now == Active(worlds[i], z) || now.None? || now == Some(target)
    ensures worlds[i + 1].status.ownership.owner == worlds[i].status.ownership.owner
  {
    assert Leads(worlds[i], rounds[i], worlds[i + 1], z, chart, target);
    RoundKeepsGood(worlds[i], z, chart, rounds[i]);
    StoredVersion(worlds[i], z, chart, rounds[i]);
  }

  // Neither the target nor the stored version is an empty chart.
  ghost predicate Installable(w: World, z: ZoneId, chart: Chart, target: Version) {
    chart(target) != {} && (Active(w, z).Some? ==> chart(Active(w, z).value) != {})
  }

  // From every state of the invariant a faultless round is possible, if there is something to install.
  lemma FaultlessRoundExists(w: World, z: ZoneId, chart: Chart, target: Version, spec: Spec, health: Code, now: int)
    requires Good(w, z, chart) && Installable(w, z, chart, target) && spec.strategy.LocalStrategy?
    ensures exists r: Round :: r.target == target && RoundOk(w, z, chart, r)
  {
    var report := SomeReport(w.worker, z, InProgress);
    var r0 := Round(spec, target, health, now, report, {}, {}, report);
    var m := Reconciled(w, z, chart, r0);
    var r := Round(spec, target, health, now, report, AllApplied(m, chart), AllRemoved(m),
                   SomeReport(m.worker, z, GoodCode(m)));
    DeployedIsInstallable(w, z, chart, r0);
    assert Reconciled(w, z, chart, r) == m;
    SomeCycleOk(m, z, chart, r);
  }

  function GoodCode(m: World): Code { if m.worker.Some? && m.worker.value.OperationJob? then Healthy else Done }

  function AllApplied(m: World, chart: Chart): set<ResourceKey> {
    if m.worker.Some? && m.worker.value.DeployJob? then chart(m.worker.value.version) else {}
  }

  function AllRemoved(m: World): set<ResourceKey> { if m.worker == Some(UndeployJob) then m.live.Keys else {} }

  // The version a reconciliation leaves a deployment at work on.
  lemma DeployedIsInstallable(w: World, z: ZoneId, chart: Chart, r: Round)
    requires Good(w, z, chart) && Installable(w, z, chart, r.target)
    requires ReportOf(r.report, z, w.worker) && !Failing(r.report)
    requires !PlacementsContain(w.status, z) ==> r.spec.strategy.LocalStrategy?
    ensures var m := Reconciled(w, z, chart, r);
      m.worker.Some? && m.worker.value.DeployJob? ==> chart(m.worker.value.version) != {}
  {
    if PlacementsContain(w.status, z) {
      ReconcileOutcome(w, z, chart, r);
      PlacedReconcileKeepsGood(w, z, chart, r);
    } else {
      UnplacedReconcile(w, z, chart, r);
    }
  }

  lemma SomeCycleOk(m: World, z: ZoneId, chart: Chart, r: Round)
    requires m.worker.Some? && m.worker.value.DeployJob? ==> chart(m.worker.value.version) != {}
    requires r.applied == AllApplied(m, chart) && r.removed == AllRemoved(m)
    requires r.told == SomeReport(m.worker, z, GoodCode(m))
    ensures CycleOk(m, z, chart, r)
  {
    if m.worker == Some(UndeployJob) {
      assert m.live - r.removed == map[];
      if m.live != map[] {
        var k :| k in m.live;
        assert k in r.removed;
      }
    }
  }

  function SomeReport(worker: Option<Job>, z: ZoneId, code: Code): Condition {
    Condition(if worker.Some? then ReportType(worker.value.Type()) else LocalCondition, z, code, 0, "", "", 0)
  }
}
