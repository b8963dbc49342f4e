// Where the stored global state ends: an application that lives in one zone becomes operational and stays so.
module Operational {
  import opened Wrappers
  import opened Versions
  import opened Api
  import opened Fsm
  import opened Decisions
  import opened Merge
  import opened Protocol
  import opened Convergence

  ghost predicate NoneFails(zones: seq<ZoneStatus>) {
    forall e, c :: e in zones && c in e.conditions ==> !Fails(c)
  }

  lemma NoneFailsIs(zones: seq<ZoneStatus>)
    ensures NoneFails(zones) <==> FailedZones(zones) == {}
  {
    if e, c :| e in zones && c in e.conditions && Fails(c) { assert e.zoneId in FailedZones(zones); }
  }

  // The status of an application of this zone only, in which nothing has failed.
  ghost predicate Well(s: Status, z: ZoneId) {
    && WellFormedStatus(s) && NoneFails(s.zones)
    && s.ownership.owner == z && s.ownership.state != NoState
    && (s.ownership.placements.Some? ==> forall p :: p in s.ownership.placements.value ==> p.zone == z)
  }

  // Nothing the round is told from outside is a failure, and the tolerance is not negative.
  ghost predicate HealthyRound(r: Round) {
    r.spec.tolerance >= 0 && r.health != Degraded && r.health != Missing && !Fails(r.report) && !Fails(r.told)
  }

  ghost predicate AllHealthy(rounds: seq<Round>) { forall r :: r in rounds ==> HealthyRound(r) }

  // A change of the own entry that brings in no failing condition.
  lemma OwnEdit(s: Status, t: Status, z: ZoneId)
    requires WellFormedStatus(t) && SameOthers(s, t, z) && NoneFails(s.zones)
    requires forall c :: c in Own(t, z).conditions ==> !Fails(c)
    ensures NoneFails(t.zones)
  {
    forall e, c | e in t.zones && c in e.conditions ensures !Fails(c) {
      OthersElements(t.zones, z);
      OthersElements(s.zones, z);
      if e.zoneId == z {
        var j :| 0 <= j < |t.zones| && t.zones[j] == e;
        ZoneIndexIs(t.zones, z, j);
      } else {
        assert e in Others(t.zones, z);
      }
    }
  }

  lemma OwnDoesNotFail(s: Status, z: ZoneId)
    requires NoneFails(s.zones)
    ensures forall c :: c in Own(s, z).conditions ==> !Fails(c)
  {
    if HasZone(s, z) { assert Own(s, z) in s.zones; }
  }

  lemma DerivedWell(s: Status, v: View)
    requires v.Valid() && Well(s, v.zone) && Derive(s, v).Derived?
    requires v.health != Degraded && v.health != Missing && (v.running.Some? ==> !Fails(v.running.value.report))
    ensures Well(Derive(s, v).status, v.zone)
    ensures Derive(s, v).status.ownership.placements == s.ownership.placements
  {
    var n := Derive(s, v).status;
    DeriveWellFormed(s, v);
    DeriveFrame(s, v);
    DerivedDoesNotFail(s, v);
    OwnEdit(s, n, v.zone);
  }

  lemma DerivedDoesNotFail(s: Status, v: View)
    requires v.Valid() && NoneFails(s.zones) && Derive(s, v).Derived?
    requires v.health != Degraded && v.health != Missing && (v.running.Some? ==> !Fails(v.running.value.report))
    ensures forall c :: c in Own(Derive(s, v).status, v.zone).conditions ==> !Fails(c)
  {
    OwnDoesNotFail(s, v.zone);
    forall c | c in Own(Derive(s, v).status, v.zone).conditions ensures !Fails(c) {
      ConditionsFrom(s, v, c);
      if Derive(s, v).job.Some? { NewDoesNotFail(Derive(s, v).job.value, v.zone, v.now); }
    }
  }

  lemma NewDoesNotFail(job: Job, z: ZoneId, now: int)
    ensures !Fails(NewReport(job, z, now))
  {}

  lemma BumpWell(t: Status, z: ZoneId, rv: int)
    requires Well(t, z)
    ensures Well(BumpZone(t, z, rv), z) && BumpZone(t, z, rv).ownership == t.ownership
  {
    if HasZone(t, z) {
      var own := Own(t, z);
      var next := own.(zoneVersion := if own.zoneVersion >= rv + 1 then own.zoneVersion + 1 else rv + 1);
      OwnWellFormed(t, z);
      OwnDoesNotFail(t, z);
      PutOwn(t, z, next);
      PutSameOthers(t, z, next);
      PutRefines(t, z, next);
      OwnEdit(t, Put(t, z, next), z);
    }
  }

  lemma MergedWell(c: Status, n: Status, z: ZoneId)
    requires Well(c, z) && Well(n, z)
    ensures Well(MergeStatus(c, n, z), z)
  {
    var m := MergeStatus(c, n, z);
    MergeWellFormed(c, n, z);
    MergeOwn(c, n, z);
    MergeTakesOver(c, n, z);
    OwnDoesNotFail(c, z);
    OwnDoesNotFail(n, z);
    MergedElements(Own(c, z).conditions, Own(n, z).conditions);
    OwnEdit(c, m, z);
  }

  lemma ReportWell(s: Status, z: ZoneId, t: JobType, c: Condition)
    requires Well(s, z) && c.zone == z && !Fails(c)
    ensures Well(JobReport(s, z, t, c).1, z) && JobReport(s, z, t, c).1.ownership.state == s.ownership.state
  {
    var b := if t.PlacementType? then s.(ownership := s.ownership.(placements := Some([Placement(z, [])]))) else s;
    assert Own(b, z) == Own(s, z);
    OwnDoesNotFail(b, z);
    UpsertEdit(b, z, c);
    var u := AddOrUpdate(b, z, c);
    PutOwn(b, z, Own(b, z).(conditions := Upsert(Own(b, z).conditions, c)));
    assert forall d :: d in Own(u, z).conditions ==> d in Own(b, z).conditions || d == c;
    OwnEdit(b, u, z);
    if !t.PlacementType? {
      DropAllEdit(u, z, Superseded(t));
      Store.DropAllElements(u, z, Superseded(t));
      OwnEdit(u, Store.DropAll(u, z, Superseded(t)), z);
    }
  }

  // What a reconciliation derives is what is stored afterwards, as far as the state goes.
  lemma StateStored(w: World, z: ZoneId, chart: Chart, r: Round)
    requires ReportOf(r.report, z, w.worker) && w.status.ownership.owner == z && w.status.ownership.state != NoState
    requires var d := Derive(w.status, Seen(w, z, chart, r)); d.Derived? && d.status.ownership.state != UnknownState
    ensures Reconciled(w, z, chart, r).status.ownership.state ==
            Derive(w.status, Seen(w, z, chart, r)).status.ownership.state
  {
    var d := Derive(w.status, Seen(w, z, chart, r));
    ReconciledIs(w, z, chart, r);
    ChangesAreFlagged(w.status, Seen(w, z, chart, r));
    MergedState(w, z, d.status);
  }

  lemma MergedState(w: World, z: ZoneId, n: Status)
    requires n.ownership.state != UnknownState
    ensures Merged(w, z, Some(n)).status.ownership.state == n.ownership.state
  {
    MergeTakesOver(w.status, n, z);
    BumpKeeps(MergeStatus(w.status, n, z), z, w.rv);
    assert MergeStatus(w.status, n, z).ownership == MergeOwnership(w.status.ownership, n.ownership);
  }

  lemma ReconciledWell(w: World, z: ZoneId, chart: Chart, r: Round)
    requires Good(w, z, chart) && Well(w.status, z) && HealthyRound(r)
    requires ReportOf(r.report, z, w.worker)
    ensures Well(Reconciled(w, z, chart, r).status, z)
  {
    var v := Seen(w, z, chart, r);
    if Derive(w.status, v).Derived? {
      var n := Derive(w.status, v).status;
      DerivedWell(w.status, v);
      ReconciledIs(w, z, chart, r);
      MergedWell(w.status, n, z);
      BumpWell(MergeStatus(w.status, n, z), z, w.rv);
    }
  }

  lemma CycledWell(m: World, z: ZoneId, chart: Chart, r: Round)
    requires Well(m.status, z) && CycleOk(m, z, chart, r) && HealthyRound(r)
    ensures Well(Cycled(m, z, chart, r).status, z)
    ensures Cycled(m, z, chart, r).status.ownership.state == m.status.ownership.state
  {
    if m.worker.Some? {
      var t := m.worker.value.Type();
      ReportWell(m.status, z, t, r.told);
      BumpWell(JobReport(m.status, z, t, r.told).1, z, m.rv);
      assert Told(m, z, t, r.told).status == m.status
             || Told(m, z, t, r.told).status == BumpZone(JobReport(m.status, z, t, r.told).1, z, m.rv);
    }
  }

  lemma RoundKeepsWell(w: World, z: ZoneId, chart: Chart, r: Round)
    requires Good(w, z, chart) && Well(w.status, z) && RoundOk(w, z, chart, r) && HealthyRound(r)
    ensures Well(NextRound(w, z, chart, r).status, z)
  {
    ReconciledWell(w, z, chart, r);
    CycledWell(Reconciled(w, z, chart, r), z, chart, r);
  }

  // The owner of a deployed application derives operational if nothing fails and there is no other placement.
  lemma DerivesOperational(s: Status, v: View)
    requires v.Valid() && Well(s, v.zone) && Derive(s, v).Derived? && v.spec.tolerance >= 0
    requires v.health != Degraded && v.health != Missing && (v.running.Some? ==> !Fails(v.running.value.report))
    requires Placed(s, v.zone) && !UndeployDue(s, v) && ActiveInstalled(v) && v.complete
    ensures Derive(s, v).status.ownership.state == Operational
  {
    var n := Derive(s, v).status;
    DerivedWell(s, v);
    StateInWords(s, v);
    NoneFailsIs(n.zones);
    ConditionsExactly(s, v, LocalCondition);
    OperatesIs(n, v.zone);
  }

  // A settled zone that owns the application alone stores operational with the next round.
  lemma SettledIsOperational(w: World, z: ZoneId, chart: Chart, r: Round)
    requires Good(w, z, chart) && PlacementsContain(w.status, z) && Settled(w, z, chart, r.target)
    requires Well(w.status, z) && RoundOk(w, z, chart, r) && HealthyRound(r) && chart(Active(w, z).value) != {}
    ensures NextRound(w, z, chart, r).status.ownership.state == Operational
  {
    var v := Seen(w, z, chart, r);
    SettledView(w, z, chart, r);
    PlacedDecision(w.status, v);
    DerivesOperational(w.status, v);
    StateStored(w, z, chart, r);
    ReconciledWell(w, z, chart, r);
    CycledWell(Reconciled(w, z, chart, r), z, chart, r);
  }

  lemma SettledView(w: World, z: ZoneId, chart: Chart, r: Round)
    requires PlacementsContain(w.status, z) && Settled(w, z, chart, r.target) && chart(Active(w, z).value) != {}
    requires ReportOf(r.report, z, w.worker)
    ensures var v := Seen(w, z, chart, r);
      v.Valid() && Placed(w.status, z) && !UndeployDue(w.status, v) && ActiveInstalled(v) && v.complete
  {
    var v := Seen(w, z, chart, r);
    ListedOnly(w, z, chart, r);
    InWords(w.status, v);
    var k :| k in chart(Active(w, z).value);
    assert k in w.live;
  }

  // Along faultless rounds without failures, an application of one zone, such as a fresh claim, is operational in
  // every world after the budget is spent.
  lemma EndsOperational(worlds: seq<World>, rounds: seq<Round>, z: ZoneId, chart: Chart, target: Version, size: nat,
                        i: nat)
    requires Faultless(worlds, rounds, z, chart, target) && AllHealthy(rounds)
    requires Good(worlds[0], z, chart) && ChartsFit(worlds[0], z, chart, target, size) && Well(worlds[0].status, z)
    requires Budget(worlds[0], z, chart, target, size) < i < |worlds|
    ensures worlds[i].status.ownership.state == Operational
  {
    BudgetSpent(worlds, rounds, z, chart, target, size, i - 1);
    Converges(worlds, rounds, z, chart, target, size, i - 1);
    WellAlong(worlds, rounds, z, chart, target, i - 1);
    OperationalAt(worlds, rounds, z, chart, target, size, i - 1);
  }

  lemma OperationalAt(worlds: seq<World>, rounds: seq<Round>, z: ZoneId, chart: Chart, target: Version, size: nat,
                      i: nat)
    requires Faultless(worlds, rounds, z, chart, target) && i < |rounds| && AllHealthy(rounds)
    requires Good(worlds[i], z, chart) && ChartsFit(worlds[i], z, chart, target, size) && Well(worlds[i].status, z)
    requires PlacementsContain(worlds[i].status, z) && Settled(worlds[i], z, chart, target)
    ensures worlds[i + 1].status.ownership.state == Operational
  {
    assert Leads(worlds[i], rounds[i], worlds[i + 1], z, chart, target);
    SettledIsOperational(worlds[i], z, chart, rounds[i]);
  }

  lemma {:induction false} WellAlong(worlds: seq<World>, rounds: seq<Round>, z: ZoneId, chart: Chart, target: Version,
                                     i: nat)
    requires Faultless(worlds, rounds, z, chart, target) && AllHealthy(rounds)
    requires Good(worlds[0], z, chart) && Well(worlds[0].status, z) && i < |worlds|
    ensures Well(worlds[i].status, z)
    decreases i
  {
    if i > 0 {
      WellAlong(worlds, rounds, z, chart, target, i - 1);
      StoredAlong(worlds, rounds, z, chart, target, i - 1);
      WellAt(worlds, rounds, z, chart, target, i - 1);
    }
  }

  lemma WellAt(worlds: seq<World>, rounds: seq<Round>, z: ZoneId, chart: Chart, target: Version, i: nat)
    requires Faultless(worlds, rounds, z, chart, target) && i < |rounds| && AllHealthy(rounds)
    requires Good(worlds[i], z, chart) && Well(worlds[i].status, z)
    ensures Well(worlds[i + 1].status, z)
  {
    assert Leads(worlds[i], rounds[i], worlds[i + 1], z, chart, target);
    RoundKeepsWell(worlds[i], z, chart, rounds[i]);
  }

  // A fresh claim is such a status.
  lemma ClaimIsWell(z: ZoneId)
    ensures Well(Claimed(EMPTY_STATUS, z), z)
  {}
}
