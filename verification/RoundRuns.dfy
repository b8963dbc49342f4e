// Every faultless round of module Convergence is a run of the fine-grained protocol.
module RoundRuns {
  import opened Wrappers
  import opened Versions
  import opened Api
  import opened Fsm
  import opened Protocol
  import opened Convergence

  ghost predicate Ends(log: seq<Entry>, w: World) {
    |log| > 0 && log[|log| - 1].rv == w.rv && log[|log| - 1].status == w.status
  }

  function Grown(log: seq<Entry>, w: World, z: ZoneId): seq<Entry>
    requires |log| > 0
  {
    if log[|log| - 1].rv == w.rv then log else log + [Entry(w.rv, w.status, Some(z))]
  }

  function Resting(log: seq<Entry>, z: ZoneId, w: World): System { One(log, z, Controller(w.live, w.worker, Idle)) }

  // The decision does not depend on where in the history its snapshot lies.
  lemma PositionIrrelevant(w: World, z: ZoneId, chart: Chart, r: Round, at: nat)
    requires ReportOf(r.report, z, w.worker)
    ensures var d, d' := Derivation(w.status, z, Listing(w, z, chart, r, 0), w.worker, r.spec, r.report, r.now),
                         Derivation(w.status, z, Listing(w, z, chart, r, at), w.worker, r.spec, r.report, r.now);
      d' == if d.Decided? then Decided(at, d.status, d.job) else d
  {
    var v := Seen(w, z, chart, r);
    assert v == ViewOf(w.status, z, Listing(w, z, chart, r, at), w.worker, r.spec, r.report, r.now);
  }

  lemma OutcomeIs(log: seq<Entry>, w: World, z: ZoneId, chart: Chart, r: Round)
    requires Ends(log, w) && ReportOf(r.report, z, w.worker) && !Panics(w, z, chart, r)
    ensures var at := |log| - 1;
      var d := Derivation(log[at].status, z, Listing(w, z, chart, r, at), w.worker, r.spec, r.report, r.now);
      (d.Decided? || d.Idle?) && Outcome(w, z, d) == Reconciled(w, z, chart, r)
  {
    PositionIrrelevant(w, z, chart, r, |log| - 1);
  }

  // A reconciliation that does not panic is a run of load, derive, stop, commit and start.
  lemma ReconciliationIsRun(log: seq<Entry>, w: World, z: ZoneId, chart: Chart, r: Round, t: System)
    requires Ends(log, w) && w.status.ownership.owner != "" && ReportOf(r.report, z, w.worker)
    requires !Panics(w, z, chart, r)
    requires var m := Reconciled(w, z, chart, r); Reaches(Resting(Grown(log, m, z), z, m), t)
    ensures Reaches(Resting(log, z, w), t)
  {
    var at := |log| - 1;
    var loaded := Listing(w, z, chart, r, at);
    OutcomeIs(log, w, z, chart, r);
    DerivationIsRun(log, w, z, loaded, r, Derivation(log[at].status, z, loaded, w.worker, r.spec, r.report, r.now), t);
    LoadIsStep(log, w, z, loaded, t);
  }

  lemma LoadIsStep(log: seq<Entry>, w: World, z: ZoneId, loaded: Phase, t: System)
    requires Ends(log, w) && w.status.ownership.owner != ""
    requires loaded.Loaded? && loaded.at == |log| - 1 && loaded.listed == w.live && loaded.seen == w.worker
    requires Reaches(One(log, z, Controller(w.live, w.worker, loaded)), t)
    ensures Reaches(Resting(log, z, w), t)
  {
    Back(log, z, Controller(w.live, w.worker, Idle), Load(z, loaded.at, loaded.target, loaded.complete, loaded.health),
         Controller(w.live, w.worker, loaded), t);
  }

  lemma DerivationIsRun(log: seq<Entry>, w: World, z: ZoneId, loaded: Phase, r: Round, d: Phase, t: System)
    requires Ends(log, w) && loaded.Loaded? && loaded.at < |log| && ReportOf(r.report, z, w.worker)
    requires d == Derivation(log[loaded.at].status, z, loaded, w.worker, r.spec, r.report, r.now)
    requires d.Decided? || d.Idle?
    requires var m := Outcome(w, z, d); Reaches(Resting(Grown(log, m, z), z, m), t)
    ensures Reaches(One(log, z, Controller(w.live, w.worker, loaded)), t)
  {
    if d.Decided? { DecidedIsRun(log, w, z, d, t); }
    DeriveIsStep(log, z, Controller(w.live, w.worker, loaded), r, d, t);
  }

  lemma DeriveIsStep(log: seq<Entry>, z: ZoneId, c: Controller, r: Round, d: Phase, t: System)
    requires c.phase.Loaded? && c.phase.at < |log| && ReportOf(r.report, z, c.worker)
    requires d == Derivation(log[c.phase.at].status, z, c.phase, c.worker, r.spec, r.report, r.now)
    requires Reaches(One(log, z, c.(phase := d)), t)
    ensures Reaches(One(log, z, c), t)
  {
    var step := DeriveStatus(z, r.spec, r.report, r.now);
    OneDerives(log, z, c, step);
    ReachesByStep(One(log, z, c), step, t);
  }

  function Stopped(worker: Option<Job>, job: Option<Job>): Option<Job> {
    if job.Some? && worker.Some? && worker.value.Type() != job.value.Type() then None else worker
  }

  lemma DecidedIsRun(log: seq<Entry>, w: World, z: ZoneId, d: Phase, t: System)
    requires Ends(log, w) && d.Decided?
    requires var m := Outcome(w, z, d); Reaches(Resting(Grown(log, m, z), z, m), t)
    ensures Reaches(One(log, z, Controller(w.live, w.worker, d)), t)
  {
    var left := Stopped(w.worker, d.job);
    MergedIgnoresWorker(w, left, z, d.status);
    StartIsStep(Grown(log, Outcome(w, z, d), z), w.live, left, Scheduled(w.worker, d.job), z, d.job, t);
    CommitIsStep(log, w.(worker := left), z, d.at, d.status, d.job, t);
    StopIsStep(log, w, z, d, t);
  }

  lemma MergedIgnoresWorker(w: World, worker: Option<Job>, z: ZoneId, n: Option<Status>)
    ensures Merged(w.(worker := worker), z, n) == Merged(w, z, n).(worker := worker)
    ensures Merged(w, z, n).live == w.live
  {}

  lemma StartIsStep(log: seq<Entry>, live: map<ResourceKey, Version>, left: Option<Job>, worker: Option<Job>, z: ZoneId,
                    job: Option<Job>, t: System)
    requires |log| > 0 && worker == Scheduled(left, job) && Reaches(One(log, z, Controller(live, worker, Idle)), t)
    ensures Reaches(One(log, z, Controller(live, left, Ready(job))), t)
  {
    Back(log, z, Controller(live, left, Ready(job)), Start(z), Controller(live, worker, Idle), t);
  }

  lemma StopIsStep(log: seq<Entry>, w: World, z: ZoneId, d: Phase, t: System)
    requires |log| > 0 && d.Decided?
    requires Reaches(One(log, z, Controller(w.live, Stopped(w.worker, d.job), Cleared(d.at, d.status, d.job))), t)
    ensures Reaches(One(log, z, Controller(w.live, w.worker, d)), t)
  {
    Back(log, z, Controller(w.live, w.worker, d), StopOther(z),
         Controller(w.live, Stopped(w.worker, d.job), Cleared(d.at, d.status, d.job)), t);
  }

  lemma CommitIsStep(log: seq<Entry>, w: World, z: ZoneId, at: nat, n: Option<Status>, job: Option<Job>, t: System)
    requires Ends(log, w)
    requires Reaches(One(Grown(log, Merged(w, z, n), z), z, Controller(w.live, w.worker, Ready(job))), t)
    ensures Reaches(One(log, z, Controller(w.live, w.worker, Cleared(at, n, job))), t)
  {
    var s := One(log, z, Controller(w.live, w.worker, Cleared(at, n, job)));
    CommitApplies(log, w, z, at, n, job);
    ReachesByStep(s, Commit(z, w.rv + 1, true), t);
  }

  lemma CommitApplies(log: seq<Entry>, w: World, z: ZoneId, at: nat, n: Option<Status>, job: Option<Job>)
    requires Ends(log, w)
    ensures var s, step := One(log, z, Controller(w.live, w.worker, Cleared(at, n, job))), Commit(z, w.rv + 1, true);
      && Enabled(s, step)
      && Apply(s, step) == One(Grown(log, Merged(w, z, n), z), z, Controller(w.live, w.worker, Ready(job)))
  {
    OneCommits(log, z, Controller(w.live, w.worker, Cleared(at, n, job)), w.rv + 1);
  }

  lemma ReportIsStep(log: seq<Entry>, w: World, z: ZoneId, c: Condition, phase: Phase, t: System)
    requires Ends(log, w) && w.worker.Some? && ReportOf(c, z, w.worker)
    requires var grown := Grown(log, Told(w, z, w.worker.value.Type(), c), z);
      Reaches(One(grown, z, Controller(w.live, w.worker, phase)), t)
    ensures Reaches(One(log, z, Controller(w.live, w.worker, phase)), t)
  {
    var grown := Grown(log, Told(w, z, w.worker.value.Type(), c), z);
    var s, step := One(log, z, Controller(w.live, w.worker, phase)), Report(z, c, w.rv + 1);
    var (updated, status) := JobReport(w.status, z, w.worker.value.Type(), c);
    if updated { assert grown == Written(s, z, w.rv + 1, status); }
    assert Apply(s, step).log == grown;
    assert Apply(s, step).zones == s.zones;
    assert Apply(s, step) == One(grown, z, Controller(w.live, w.worker, phase));
    ReachesByStep(s, step, t);
  }

  lemma FinishIsStep(log: seq<Entry>, live: map<ResourceKey, Version>, worker: Option<Job>, z: ZoneId, t: System)
    requires |log| > 0 && Reaches(One(log, z, Controller(live, None, Idle)), t)
    ensures Reaches(One(log, z, Controller(live, worker, Idle)), t)
  {
    if worker.Some? { Back(log, z, Controller(live, worker, Idle), Finish(z), Controller(live, None, Idle), t); }
  }

  lemma WorkIsStep(log: seq<Entry>, live: map<ResourceKey, Version>, job: Job, z: ZoneId, r: Round, t: System)
    requires |log| > 0 && Reaches(One(log, z, Controller(Worked(live, job, r), Some(job), Idle)), t)
    ensures Reaches(One(log, z, Controller(live, Some(job), Idle)), t)
  {
    var c, c' := Controller(live, Some(job), Idle), Controller(Worked(live, job, r), Some(job), Idle);
    match job
    case DeployJob(_) => Back(log, z, c, Sync(z, r.applied, r.removed), c', t);
    case UndeployJob => Back(log, z, c, Cleanup(z, r.removed), c', t);
    case _ =>
  }

  function Worked(live: map<ResourceKey, Version>, job: Job, r: Round): map<ResourceKey, Version> {
    match job
    case DeployJob(v) => Synced(live, r.applied, r.removed, v)
    case UndeployJob => live - r.removed
    case _ => live
  }

  // A job's cycle is a run of at most a synchronization or cleanup, a report and the job's end.
  lemma CycleIsRun(log: seq<Entry>, m: World, z: ZoneId, chart: Chart, r: Round, t: System)
    requires Ends(log, m) && CycleOk(m, z, chart, r)
    requires var n := Cycled(m, z, chart, r); Reaches(Resting(Grown(log, n, z), z, n), t)
    ensures Reaches(Resting(log, z, m), t)
  {
    if m.worker.Some? {
      var n, job := Cycled(m, z, chart, r), m.worker.value;
      var live := Worked(m.live, job, r);
      if n.worker.None? { FinishIsStep(Grown(log, n, z), live, m.worker, z, t); }
      CycleReports(log, m, z, chart, r, t);
      WorkIsStep(log, m.live, job, z, r, t);
    }
  }

  lemma CycleReports(log: seq<Entry>, m: World, z: ZoneId, chart: Chart, r: Round, t: System)
    requires Ends(log, m) && CycleOk(m, z, chart, r) && m.worker.Some?
    requires var n, live := Cycled(m, z, chart, r), Worked(m.live, m.worker.value, r);
      Reaches(One(Grown(log, n, z), z, Controller(live, m.worker, Idle)), t)
    ensures Reaches(One(log, z, Controller(Worked(m.live, m.worker.value, r), m.worker, Idle)), t)
  {
    var job := m.worker.value;
    var live := Worked(m.live, job, r);
    var told := !(job.DeployJob? && !Complete(live, chart, job.version));
    var next := Told(m.(live := live), z, job.Type(), r.told);
    assert Cycled(m, z, chart, r).rv == if told then next.rv else m.rv;
    assert Cycled(m, z, chart, r).status == if told then next.status else m.status;
    if told { ReportIsStep(log, m.(live := live), z, r.told, Idle, t); }
  }

  // Some run of the protocol with this zone alone leads from `w`, last in `log`, to `n`.
  ghost predicate Arrives(log: seq<Entry>, w: World, z: ZoneId, n: World) {
    exists log' :: Ends(log', n) && Reaches(Resting(log, z, w), Resting(log', z, n))
  }

  ghost predicate Panics(w: World, z: ZoneId, chart: Chart, r: Round)
    requires ReportOf(r.report, z, w.worker)
  {
    Derivation(w.status, z, Listing(w, z, chart, r, 0), w.worker, r.spec, r.report, r.now).Panic?
  }

  // Every faultless round is a run of the protocol, so what holds over all its runs holds here.
  lemma RoundIsRun(log: seq<Entry>, w: World, z: ZoneId, chart: Chart, r: Round)
    requires Ends(log, w) && Good(w, z, chart) && RoundOk(w, z, chart, r)
    ensures Arrives(log, w, z, NextRound(w, z, chart, r))
  {
    GoodIsCalm(w, z, chart, r);
    var m := Reconciled(w, z, chart, r);
    GrownEnds(log, w, m, z);
    CycleArrives(Grown(log, m, z), m, z, chart, r);
    var log' :| Ends(log', Cycled(m, z, chart, r))
                && Reaches(Resting(Grown(log, m, z), z, m), Resting(log', z, Cycled(m, z, chart, r)));
    ReconciliationIsRun(log, w, z, chart, r, Resting(log', z, Cycled(m, z, chart, r)));
    ArrivesBy(log, w, z, NextRound(w, z, chart, r), log');
  }

  lemma GrownEnds(log: seq<Entry>, w: World, m: World, z: ZoneId)
    requires Ends(log, w) && (m.rv == w.rv ==> m.status == w.status)
    ensures Ends(Grown(log, m, z), m)
  {}

  lemma CycleArrives(log: seq<Entry>, m: World, z: ZoneId, chart: Chart, r: Round)
    requires Ends(log, m) && CycleOk(m, z, chart, r)
    ensures Arrives(log, m, z, Cycled(m, z, chart, r))
  {
    var n := Cycled(m, z, chart, r);
    var log' := Grown(log, n, z);
    GrownEnds(log, m, n, z);
    assert Run(Resting(log', z, n), [], Resting(log', z, n));
    CycleIsRun(log, m, z, chart, r, Resting(log', z, n));
    ArrivesBy(log, m, z, n, log');
  }

  lemma ArrivesBy(log: seq<Entry>, w: World, z: ZoneId, n: World, log': seq<Entry>)
    requires Ends(log', n) && Reaches(Resting(log, z, w), Resting(log', z, n))
    ensures Arrives(log, w, z, n)
  {}

  lemma GoodIsCalm(w: World, z: ZoneId, chart: Chart, r: Round)
    requires Good(w, z, chart) && ReportOf(r.report, z, w.worker) && !Failing(r.report)
    ensures !Panics(w, z, chart, r)
  {
    var v := Seen(w, z, chart, r);
    PanicsExactlyWhen(w.status, v);
    if PlacementsContain(w.status, z) { PlacedDecision(w.status, v); }
    else { ListedOnly(w, z, chart, r); }
  }

  // ---- many rounds ----

  lemma {:induction false} RunThen(s: System, steps: seq<Step>, t: System, u: System)
    requires CrashFree(steps) && Run(s, steps, t) && Reaches(t, u)
    ensures Reaches(s, u)
    decreases |steps|
  {
    if steps != [] {
      RunThen(Apply(s, steps[0]), steps[1..], t, u);
      ReachesByStep(s, steps[0], u);
    }
  }

  lemma ReachesOn(s: System, t: System, u: System)
    requires Reaches(s, t) && Reaches(t, u)
    ensures Reaches(s, u)
  {
    var steps :| CrashFree(steps) && Run(s, steps, t);
    RunThen(s, steps, t, u);
  }

  lemma ArrivesOn(log: seq<Entry>, w: World, z: ZoneId, m: World, log': seq<Entry>, n: World)
    requires Reaches(Resting(log, z, w), Resting(log', z, m)) && Arrives(log', m, z, n)
    ensures Arrives(log, w, z, n)
  {
    var log'' :| Ends(log'', n) && Reaches(Resting(log', z, m), Resting(log'', z, n));
    ReachesOn(Resting(log, z, w), Resting(log', z, m), Resting(log'', z, n));
  }

  lemma RoundAt(worlds: seq<World>, rounds: seq<Round>, z: ZoneId, chart: Chart, target: Version, i: nat,
                log: seq<Entry>)
    requires Faultless(worlds, rounds, z, chart, target) && i < |rounds| && Good(worlds[i], z, chart)
    requires Ends(log, worlds[i])
    ensures Arrives(log, worlds[i], z, worlds[i + 1])
  {
    assert Leads(worlds[i], rounds[i], worlds[i + 1], z, chart, target);
    RoundIsRun(log, worlds[i], z, chart, rounds[i]);
  }

  // Any number of faultless rounds is a run of the protocol.
  lemma {:induction false} RoundsAreRun(worlds: seq<World>, rounds: seq<Round>, z: ZoneId, chart: Chart,
                                        target: Version, i: nat, log: seq<Entry>)
    requires Faultless(worlds, rounds, z, chart, target) && i < |worlds| && Good(worlds[0], z, chart)
    requires Ends(log, worlds[0])
    ensures Arrives(log, worlds[0], z, worlds[i])
    decreases i
  {
    if i == 0 {
      var t := Resting(log, z, worlds[0]);
      assert Run(t, [], t);
      ArrivesBy(log, worlds[0], z, worlds[0], log);
    } else {
      RoundsAreRun(worlds, rounds, z, chart, target, i - 1, log);
      StoredAlong(worlds, rounds, z, chart, target, i - 1);
      var m := worlds[i - 1];
      var log' :| Ends(log', m) && Reaches(Resting(log, z, worlds[0]), Resting(log', z, m));
      RoundAt(worlds, rounds, z, chart, target, i - 1, log');
      ArrivesOn(log, worlds[0], z, m, log', worlds[i]);
    }
  }
}
