// What becomes of a zone that loses its job: it converges all the same, or it is stuck for good.
module JobLoss {
  import opened Wrappers
  import opened Versions
  import opened Api
  import opened Fsm
  import opened Merge
  import opened Protocol
  import opened Convergence
  import opened RoundRuns
  import opened Reachable

  // Only outdated resources are installed and no job is left to remove them.
  ghost predicate Stuck(w: World, z: ZoneId) {
    && PlacementsContain(w.status, z) && w.status.ownership.state != NoState
    && w.worker.None? && w.live != map[] && forall k :: k in w.live ==> Active(w, z) != Some(w.live[k])
  }

  // If an upgrade loses its undeployment, no reconciliation ever asks for another: the zone stays as it is.
  lemma LostUndeploymentSticks(w: World, z: ZoneId, chart: Chart, r: Round)
    requires Stuck(w, z) && ReportOf(r.report, z, w.worker)
    ensures var n := Cycled(Reconciled(w, z, chart, r), z, chart, r); Stuck(n, z) && n.live == w.live
  {
    var v := Seen(w, z, chart, r);
    StuckView(w, z, chart, r);
    NothingDerived(w.status, v);
    ReconciledIs(w, z, chart, r);
    MergedVersion(w, z, Derive(w.status, v).status);
    var d := Derive(w.status, v);
    StuckOutcome(w, z, Decided(0, if d.updated then Some(d.status) else None, d.job));
  }

  lemma StuckOutcome(w: World, z: ZoneId, d: Phase)
    requires Stuck(w, z) && d.Decided? && d.job.None?
    requires var m := Merged(w, z, d.status);
      && m.status.ownership.placements == w.status.ownership.placements && m.status.ownership.state != NoState
      && (Active(m, z) == Active(w, z) || Active(m, z).None?)
    ensures Stuck(Outcome(w, z, d), z) && Outcome(w, z, d).live == w.live && Outcome(w, z, d).worker.None?
  {}

  lemma StuckView(w: World, z: ZoneId, chart: Chart, r: Round)
    requires Stuck(w, z) && ReportOf(r.report, z, w.worker)
    ensures var v := Seen(w, z, chart, r); v.NonActiveVersionsPresent() && !v.IsPresent()
  {
    ListedOnly(w, z, chart, r);
    var k :| k in w.live;
    assert !Labelled(w, z);
  }

  lemma NothingDerived(s: Status, v: View)
    requires v.Valid() && PlacementsContain(s, v.zone) && s.ownership.state != NoState
    requires v.NonActiveVersionsPresent() && !v.IsPresent()
    ensures Derive(s, v).Derived? && Derive(s, v).job.None?
    ensures var n := Derive(s, v).status;
      && n.ownership.placements == s.ownership.placements && n.ownership.state != NoState
      && (HasZone(n, v.zone) ==> Own(n, v.zone).chartVersion == Own(s, v.zone).chartVersion)
  {
    PlacedDecision(s, v);
    NoUndeployWithoutActive(Noted(s, v), v);
    DeriveFrame(s, v);
  }

  lemma NoUndeployWithoutActive(b: Status, v: View)
    requires v.Valid() && MustUndeploy(b, v) && !v.IsPresent()
    ensures LocalNext(b, v).job.None? && LocalNext(b, v).newVersion.None?
  {}

  lemma MergedVersion(w: World, z: ZoneId, n: Status)
    requires n.ownership.placements == w.status.ownership.placements && n.ownership.state != NoState
    requires w.status.ownership.state != NoState
    ensures var m := Merged(w, z, Some(n));
      && m.status.ownership.placements == w.status.ownership.placements && m.status.ownership.state != NoState
      && (Active(m, z) == Active(w, z) || Active(m, z) == if HasZone(n, z) then Own(n, z).chartVersion else None)
  {
    MergeOwn(w.status, n, z);
    BumpKeeps(MergeStatus(w.status, n, z), z, w.rv);
  }

  function Lost(w: World): World { w.(worker := None) }

  // After a fault the invariant still holds exactly unless the zone is stuck.
  lemma LossKeepsGoodExactlyWhen(w: World, z: ZoneId, chart: Chart)
    requires Good(w, z, chart)
    ensures Good(Lost(w), z, chart) <==> !Stuck(Lost(w), z)
  {
    if w.live != map[] {
      var k :| k in w.live;
      assert Labelled(w, z) <==> Active(w, z) == Some(w.live[k]);
      assert Active(Lost(w), z) == Active(w, z);
    }
  }

  // Through any number of further rounds a stuck zone stays stuck, with the same resources.
  lemma {:induction false} StaysStuck(worlds: seq<World>, rounds: seq<Round>, z: ZoneId, chart: Chart,
                                      target: Version, i: nat)
    requires Faultless(worlds, rounds, z, chart, target) && Stuck(worlds[0], z) && i < |worlds|
    ensures Stuck(worlds[i], z) && worlds[i].live == worlds[0].live
    decreases i
  {
    if i > 0 {
      StaysStuck(worlds, rounds, z, chart, target, i - 1);
      StuckAt(worlds, rounds, z, chart, target, i - 1);
    }
  }

  lemma StuckAt(worlds: seq<World>, rounds: seq<Round>, z: ZoneId, chart: Chart, target: Version, i: nat)
    requires Faultless(worlds, rounds, z, chart, target) && i < |rounds| && Stuck(worlds[i], z)
    ensures Stuck(worlds[i + 1], z) && worlds[i + 1].live == worlds[i].live
  {
    assert Leads(worlds[i], rounds[i], worlds[i + 1], z, chart, target);
    LostUndeploymentSticks(worlds[i], z, chart, rounds[i]);
  }

  // A zone that loses its job settles in every long enough faultless continuation, or in none: it does exactly
  // unless it is stuck.
  lemma SettlesAfterLossExactlyWhen(w: World, worlds: seq<World>, rounds: seq<Round>, z: ZoneId, chart: Chart,
                                    target: Version, size: nat, i: nat)
    requires Good(w, z, chart) && Faultless(worlds, rounds, z, chart, target) && worlds[0] == Lost(w)
    requires ChartsFit(w, z, chart, target, size)
    requires Budget(Lost(w), z, chart, target, size) <= i < |worlds|
    ensures Settled(worlds[i], z, chart, target) <==> !Stuck(Lost(w), z)
  {
    LossKeepsGoodExactlyWhen(w, z, chart);
    if Stuck(Lost(w), z) {
      StaysStuck(worlds, rounds, z, chart, target, i);
      StuckIsNotSettled(worlds[i], z, chart, target);
    } else {
      Converges(worlds, rounds, z, chart, target, size, i);
    }
  }

  lemma StuckIsNotSettled(w: World, z: ZoneId, chart: Chart, target: Version)
    requires Stuck(w, z)
    ensures !Settled(w, z, chart, target)
  {}

  // ---- a reachable instance ----

  // The first round of an upgrade starts the undeployment. Losing it then sticks exactly if anything is left.
  lemma UpgradeSticksExactlyWhen(w: World, z: ZoneId, chart: Chart, r: Round)
    requires Good(w, z, chart) && PlacementsContain(w.status, z) && RoundOk(w, z, chart, r)
    requires Labelled(w, z) && w.live != map[] && !Up(w, z, r.target) && w.worker != Some(UndeployJob)
    ensures var n := NextRound(w, z, chart, r);
      (Stuck(Lost(n), z) <==> n.live != map[]) && n.live == w.live - r.removed && Active(n, z) == Some(r.target)
  {
    var m := Reconciled(w, z, chart, r);
    UpgradeStarts(w, z, chart, r);
    PlacedReconcileKeepsGood(w, z, chart, r);
    UndeployingLost(m, Active(w, z).value, z, chart, r);
  }

  lemma UndeployingLost(m: World, was: Version, z: ZoneId, chart: Chart, r: Round)
    requires Good(m, z, chart) && PlacementsContain(m.status, z) && CycleOk(m, z, chart, r)
    requires m.worker == Some(UndeployJob) && Only(m.live, was) && !r.target.Equal(was)
    requires Active(m, z) == Some(r.target)
    ensures var n := Cycled(m, z, chart, r);
      && (Stuck(Lost(n), z) <==> n.live != map[]) && n.live == m.live - r.removed && Active(n, z) == Some(r.target)
      && n.worker == if n.live == map[] then None else m.worker
  {
    var n := Cycled(m, z, chart, r);
    CycleKeepsGood(m, z, chart, r);
    PrecedenceFlip(r.target, r.target);
    assert n.live == m.live - r.removed;
    assert Active(Lost(n), z) == Active(n, z);
  }

  lemma UpgradeStarts(w: World, z: ZoneId, chart: Chart, r: Round)
    requires Good(w, z, chart) && ReportOf(r.report, z, w.worker) && !Failing(r.report)
    requires PlacementsContain(w.status, z)
    requires Labelled(w, z) && w.live != map[] && !Up(w, z, r.target) && w.worker != Some(UndeployJob)
    ensures var m := Reconciled(w, z, chart, r);
      m.live == w.live && m.worker == Some(UndeployJob) && Active(m, z) == Some(r.target)
  {
    DecisionOnWorld(w, z, chart, r);
    ReconcileOutcome(w, z, chart, r);
  }

  // A round whose undeployment cycle deletes one resource only.
  function UpgradeRound(w: World, z: ZoneId, target: Version, spec: Spec, k: ResourceKey): Round {
    Round(spec, target, Healthy, 0, SomeReport(w.worker, z, InProgress), {}, {k},
          SomeReport(Some(UndeployJob), z, Undeploy))
  }

  lemma UpgradeRoundOk(w: World, z: ZoneId, chart: Chart, target: Version, spec: Spec, k: ResourceKey)
    requires Good(w, z, chart) && PlacementsContain(w.status, z) && k in w.live && |w.live| > 1
    requires Labelled(w, z) && !Up(w, z, target) && w.worker != Some(UndeployJob)
    ensures var r := UpgradeRound(w, z, target, spec, k);
      && RoundOk(w, z, chart, r) && NextRound(w, z, chart, r).live == w.live - {k} != map[]
      && NextRound(w, z, chart, r).worker == Some(UndeployJob)
  {
    var r := UpgradeRound(w, z, target, spec, k);
    UpgradeStarts(w, z, chart, r);
    SomethingLeft(w.live, k);
    PlacedRoundOk(w, Reconciled(w, z, chart, r), z, chart, r, k);
  }

  lemma PlacedRoundOk(w: World, m: World, z: ZoneId, chart: Chart, r: Round, k: ResourceKey)
    requires PlacementsContain(w.status, z) && ReportOf(r.report, z, w.worker) && !Failing(r.report)
    requires m == Reconciled(w, z, chart, r) && m.live == w.live && m.worker == Some(UndeployJob)
    requires r.removed == {k} && k in w.live && w.live - {k} != map[]
    requires r.told == SomeReport(Some(UndeployJob), z, Undeploy)
    ensures RoundOk(w, z, chart, r) && NextRound(w, z, chart, r).live == w.live - {k}
    ensures NextRound(w, z, chart, r).worker == Some(UndeployJob)
  {
    PartialCycleOk(m, z, chart, r, k);
  }

  lemma SomethingLeft(live: map<ResourceKey, Version>, k: ResourceKey)
    requires k in live && |live| > 1
    ensures live - {k} != map[]
  {
    assert |live.Keys| == |live| && |live.Keys - {k}| == |live.Keys| - 1;
    assert (live - {k}).Keys == live.Keys - {k};
    assert (live - {k}).Keys != {};
  }

  lemma PartialCycleOk(m: World, z: ZoneId, chart: Chart, r: Round, k: ResourceKey)
    requires m.worker == Some(UndeployJob) && r.removed == {k} && k in m.live && m.live - {k} != map[]
    requires r.told == SomeReport(Some(UndeployJob), z, Undeploy)
    ensures CycleOk(m, z, chart, r) && Cycled(m, z, chart, r).live == m.live - {k}
    ensures Cycled(m, z, chart, r).worker == Some(UndeployJob)
  {}

  // A faultless cycle of the undeployment may leave all but one resource.
  lemma UpgradeCanStick(w: World, z: ZoneId, chart: Chart, first: Version, target: Version, spec: Spec)
    requires Deployed(w, z, chart, first) && |w.live| > 1 && !target.Equal(first)
    ensures exists r: Round ::
      && r.target == target && RoundOk(w, z, chart, r)
      && var n := NextRound(w, z, chart, r); MidUpgrade(n, z, chart, first, target) && Stuck(Lost(n), z)
  {
    var k :| k in w.live;
    var r := UpgradeRound(w, z, target, spec, k);
    UpgradeRoundOk(w, z, chart, target, spec, k);
    UpgradeSticksExactlyWhen(w, z, chart, r);
    StuckMidUpgrade(w, NextRound(w, z, chart, r), z, chart, first, target, k);
  }

  lemma StuckMidUpgrade(w: World, n: World, z: ZoneId, chart: Chart, first: Version, target: Version, k: ResourceKey)
    requires Deployed(w, z, chart, first) && n.live == w.live - {k} != map[] && Active(n, z) == Some(target)
    requires n.worker == Some(UndeployJob)
    ensures MidUpgrade(n, z, chart, first, target)
  {
    assert forall j :: j in n.live ==> j in w.live && n.live[j] == w.live[j];
  }

  // An upgrade under way: the target is stored, and what is installed is a part of the first version.
  ghost predicate MidUpgrade(n: World, z: ZoneId, chart: Chart, first: Version, target: Version) {
    && Active(n, z) == Some(target) && n.worker == Some(UndeployJob)
    && n.live != map[] && Only(n.live, first) && n.live.Keys <= chart(first)
  }

  // From a freshly claimed application, deployed without faults and upgraded to any other version, the loss of
  // one job can leave the zone stuck, if the first version has more than one resource.
  lemma StuckIsReachable(z: ZoneId, chart: Chart, first: Version, target: Version, spec: Spec)
    requires z != "" && |chart(first)| > 1 && !target.Equal(first) && spec.strategy.LocalStrategy?
    ensures exists worlds, rounds, r: Round ::
      && DeploysTo(worlds, rounds, z, chart, first) && r.target == target && RoundOk(worlds[|rounds|], z, chart, r)
      && var n := NextRound(worlds[|rounds|], z, chart, r);
         MidUpgrade(n, z, chart, first, target) && Stuck(Lost(n), z)
  {
    DeployedIsReachable(z, chart, first, spec);
    var worlds, rounds :| DeploysTo(worlds, rounds, z, chart, first);
    var last: World := worlds[|rounds|];
    assert last.live.Keys == chart(first) && |last.live.Keys| == |last.live|;
    UpgradeCanStick(last, z, chart, first, target, spec);
    var r: Round :| r.target == target && RoundOk(last, z, chart, r)
                    && var n := NextRound(last, z, chart, r);
                       MidUpgrade(n, z, chart, first, target) && Stuck(Lost(n), z);
  }

  // Losing the job is a crash of the protocol, which also ends a reconciliation.
  lemma LossIsCrash(log: seq<Entry>, z: ZoneId, w: World)
    requires Ends(log, w)
    ensures Enabled(Resting(log, z, w), Crash(z)) && Apply(Resting(log, z, w), Crash(z)) == Resting(log, z, Lost(w))
  {}

  lemma UpgradeArrives(worlds: seq<World>, rounds: seq<Round>, z: ZoneId, chart: Chart, first: Version, r: Round)
    requires z != "" && DeploysTo(worlds, rounds, z, chart, first) && RoundOk(worlds[|rounds|], z, chart, r)
    ensures Arrives(ClaimedLog(z), ClaimedWorld(z), z, NextRound(worlds[|rounds|], z, chart, r))
  {
    var log, last := ClaimedLog(z), worlds[|rounds|];
    ClaimedIsGood(z, 1, chart);
    RoundsAreRun(worlds, rounds, z, chart, first, |rounds|, log);
    var log' :| Ends(log', last) && Reaches(Resting(log, z, worlds[0]), Resting(log', z, last));
    RoundIsRun(log', last, z, chart, r);
    ArrivesOn(log, worlds[0], z, last, log', NextRound(last, z, chart, r));
  }

  // A run of the protocol from an empty status without a crash leads into the upgrade; one crash there, and the
  // zone is stuck.
  lemma StuckFromEmpty(z: ZoneId, chart: Chart, first: Version, target: Version, spec: Spec)
    requires z != "" && |chart(first)| > 1 && !target.Equal(first) && spec.strategy.LocalStrategy?
    ensures Initial(Empty(z)) && exists log, n ::
      && Ends(log, n) && MidUpgrade(n, z, chart, first, target) && Stuck(Lost(n), z)
      && Reaches(Empty(z), Resting(log, z, n))
      && Apply(Resting(log, z, n), Crash(z)) == Resting(log, z, Lost(n))
  {
    StuckIsReachable(z, chart, first, target, spec);
    var worlds, rounds, r: Round :|
      && DeploysTo(worlds, rounds, z, chart, first) && r.target == target && RoundOk(worlds[|rounds|], z, chart, r)
      && var n := NextRound(worlds[|rounds|], z, chart, r);
         MidUpgrade(n, z, chart, first, target) && Stuck(Lost(n), z);
    var n := NextRound(worlds[|rounds|], z, chart, r);
    UpgradeArrives(worlds, rounds, z, chart, first, r);
    CrashAt(z, n);
  }

  lemma CrashAt(z: ZoneId, n: World)
    requires z != "" && Arrives(ClaimedLog(z), ClaimedWorld(z), z, n)
    ensures Initial(Empty(z)) && exists log ::
      && Ends(log, n) && Reaches(Empty(z), Resting(log, z, n))
      && Apply(Resting(log, z, n), Crash(z)) == Resting(log, z, Lost(n))
  {
    FromEmpty(z, n);
    var log :| Ends(log, n) && Reaches(Empty(z), Resting(log, z, n));
    LossIsCrash(log, z, n);
  }
}
