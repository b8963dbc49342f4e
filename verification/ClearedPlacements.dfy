// What happens when someone clears the placements of a deployed application, which the controller never does.
module ClearedPlacements {
  import opened Wrappers
  import opened Versions
  import opened Api
  import opened Fsm
  import opened Protocol
  import opened Convergence
  import opened RoundRuns
  import opened Reachable

  // The world after the clearing write.
  function Unplaced(w: World): World {
    w.(rv := w.rv + 1, status := w.status.(ownership := w.status.ownership.(placements := None)))
  }

  // Exactly when the owner's next reconciliation panics: its stored version is installed and no undeployment runs.
  lemma ClearingPanicsExactlyWhen(w: World, z: ZoneId, chart: Chart, r: Round)
    requires Good(w, z, chart) && PlacementsContain(w.status, z) && w.status.ownership.owner == z
    requires ReportOf(r.report, z, w.worker) && r.spec.strategy.LocalStrategy?
    ensures Panics(Unplaced(w), z, chart, r) <==>
      && w.worker != Some(UndeployJob)
      && Active(w, z).Some? && exists k :: k in w.live && w.live[k] == Active(w, z).value
  {
    var u := Unplaced(w);
    var v := Seen(u, z, chart, r);
    assert Own(u.status, z) == Own(w.status, z);
    ListedOnly(u, z, chart, r);
    NotExhausted(Own(u.status, z).conditions, UndeploymentCondition, r.spec.maxRetries);
    PanicsExactlyWhen(u.status, v);
  }

  // The write and the two steps after it, in the protocol.
  lemma PanicIsReached(log: seq<Entry>, u: World, z: ZoneId, chart: Chart, r: Round)
    requires Ends(log, u) && u.status.ownership.owner != "" && ReportOf(r.report, z, u.worker)
    requires Panics(u, z, chart, r)
    ensures Reaches(Resting(log, z, u), One(log, z, Controller(u.live, u.worker, Panic)))
  {
    var at := |log| - 1;
    var loaded, t := Listing(u, z, chart, r, at), One(log, z, Controller(u.live, u.worker, Panic));
    assert CrashFree([]) && Run(t, [], t);
    PositionIrrelevant(u, z, chart, r, at);
    DeriveIsStep(log, z, Controller(u.live, u.worker, loaded), r, Panic, t);
    LoadIsStep(log, u, z, loaded, t);
  }

  // A run of the protocol from an empty status to a deployed application, one write that clears the placements, and
  // two further steps end in the panic: for every version that installs something.
  lemma PanicFromEmpty(z: ZoneId, chart: Chart, v: Version, spec: Spec)
    requires z != "" && chart(v) != {} && spec.strategy.LocalStrategy?
    ensures Initial(Empty(z)) && exists log, w: World ::
      && Deployed(w, z, chart, v) && Ends(log, w) && Reaches(Empty(z), Resting(log, z, w))
      && var u := Unplaced(w);
         var cleared := log + [Entry(u.rv, u.status, None)];
         Reaches(Resting(cleared, z, u), One(cleared, z, Controller(u.live, u.worker, Panic)))
  {
    DeployedIsReachable(z, chart, v, spec);
    var worlds, rounds :| DeploysTo(worlds, rounds, z, chart, v);
    var w: World := worlds[|rounds|];
    ClaimedIsGood(z, 1, chart);
    RoundsAreRun(worlds, rounds, z, chart, v, |rounds|, ClaimedLog(z));
    FromEmpty(z, w);
    var log :| Ends(log, w) && Reaches(Empty(z), Resting(log, z, w));
    DeployedPanics(log, w, z, chart, v, spec);
  }

  lemma DeployedPanics(log: seq<Entry>, w: World, z: ZoneId, chart: Chart, v: Version, spec: Spec)
    requires Deployed(w, z, chart, v) && Ends(log, w) && chart(v) != {} && z != "" && spec.strategy.LocalStrategy?
    ensures var u := Unplaced(w);
      var cleared := log + [Entry(u.rv, u.status, None)];
      Reaches(Resting(cleared, z, u), One(cleared, z, Controller(u.live, u.worker, Panic)))
  {
    var u := Unplaced(w);
    var cleared := log + [Entry(u.rv, u.status, None)];
    var report := SomeReport(w.worker, z, Healthy);
    var r := Round(spec, v, Healthy, 0, report, {}, {}, report);
    var k :| k in chart(v);
    assert k in w.live && w.live[k] == v;
    ClearingPanicsExactlyWhen(w, z, chart, r);
    PanicIsReached(cleared, u, z, chart, r);
  }
}
