// States that faultless rounds and runs of the protocol really reach, from an empty status on.
module Reachable {
  import opened Wrappers
  import opened Versions
  import opened Api
  import opened Fsm
  import opened Protocol
  import opened Convergence
  import opened RoundRuns

  ghost predicate HasChain<W(!new), R(!new)>(w: W, n: nat, leads: (W, R, W) -> bool) {
    exists worlds: seq<W>, rounds: seq<R> :: |rounds| == n && Chained(worlds, rounds, leads) && worlds[0] == w
  }

  // Some `n` faultless rounds start in `w`.
  ghost predicate HasRun(w: World, z: ZoneId, chart: Chart, target: Version, n: nat) {
    HasChain(w, n, Leading(z, chart, target))
  }

  lemma Extended<W(!new), R(!new)>(worlds: seq<W>, rounds: seq<R>, leads: (W, R, W) -> bool, r: R, next: W)
    requires Chained(worlds, rounds, leads) && leads(worlds[|rounds|], r, next)
    ensures HasChain(worlds[0], |rounds| + 1, leads)
  {
    var longer, more := worlds + [next], rounds + [r];
    forall i | 0 <= i < |more| ensures leads(longer[i], more[i], longer[i + 1]) {
      if i < |rounds| { assert more[i] == rounds[i]; }
    }
    assert Chained(longer, more, leads) && longer[0] == worlds[0];
  }

  lemma OneMoreRound(worlds: seq<World>, rounds: seq<Round>, z: ZoneId, chart: Chart, target: Version, spec: Spec)
    requires Faultless(worlds, rounds, z, chart, target) && Good(worlds[0], z, chart)
    requires Installable(worlds[0], z, chart, target) && spec.strategy.LocalStrategy?
    ensures HasRun(worlds[0], z, chart, target, |rounds| + 1)
  {
    var last := worlds[|rounds|];
    StoredAlong(worlds, rounds, z, chart, target, |rounds|);
    FaultlessRoundExists(last, z, chart, target, spec, Healthy, 0);
    var r: Round :| r.target == target && RoundOk(last, z, chart, r);
    var next := NextRound(last, z, chart, r);
    assert Leading(z, chart, target)(last, r, next);
    Extended(worlds, rounds, Leading(z, chart, target), r, next);
  }

  lemma {:induction false} FaultlessRunExists(w: World, z: ZoneId, chart: Chart, target: Version, spec: Spec, n: nat)
    requires Good(w, z, chart) && Installable(w, z, chart, target) && spec.strategy.LocalStrategy?
    ensures HasRun(w, z, chart, target, n)
    decreases n
  {
    if n == 0 {
      var rounds: seq<Round> := [];
      assert |rounds| == n && Chained([w], rounds, Leading(z, chart, target)) && [w][0] == w;
    } else {
      FaultlessRunExists(w, z, chart, target, spec, n - 1);
      var worlds, rounds :| |rounds| == n - 1 && Faultless(worlds, rounds, z, chart, target) && worlds[0] == w;
      OneMoreRound(worlds, rounds, z, chart, target, spec);
    }
  }

  function Empty(z: ZoneId): System { One([Entry(0, EMPTY_STATUS, None)], z, Controller(map[], None, Idle)) }

  function ClaimedWorld(z: ZoneId): World { World(1, Claimed(EMPTY_STATUS, z), map[], None) }

  function ClaimedLog(z: ZoneId): seq<Entry> { Empty(z).log + [Entry(1, ClaimedWorld(z).status, Some(z))] }

  // The zone's own application, deployed: exactly the version's resources and its operation job.
  ghost predicate Deployed(w: World, z: ZoneId, chart: Chart, v: Version) {
    && Good(w, z, chart) && PlacementsContain(w.status, z) && w.status.ownership.owner == z
    && Active(w, z) == Some(v) && Settled(w, z, chart, v)
  }

  // Faultless rounds from a fresh claim to the deployment of any version that installs something.
  ghost predicate DeploysTo(worlds: seq<World>, rounds: seq<Round>, z: ZoneId, chart: Chart, v: Version) {
    && Faultless(worlds, rounds, z, chart, v) && worlds[0] == ClaimedWorld(z)
    && Deployed(worlds[|rounds|], z, chart, v)
  }

  lemma DeployedIsReachable(z: ZoneId, chart: Chart, v: Version, spec: Spec)
    requires z != "" && chart(v) != {} && spec.strategy.LocalStrategy?
    ensures exists worlds, rounds :: DeploysTo(worlds, rounds, z, chart, v)
  {
    var w, size := ClaimedWorld(z), |chart(v)|;
    ClaimedIsGood(z, 1, chart);
    var n := Budget(w, z, chart, v, size);
    FaultlessRunExists(w, z, chart, v, spec, n);
    var worlds, rounds :| |rounds| == n && Faultless(worlds, rounds, z, chart, v) && worlds[0] == w;
    assert ChartsFit(w, z, chart, v, size);
    Converges(worlds, rounds, z, chart, v, size, n);
    StoredAlong(worlds, rounds, z, chart, v, n);
    BudgetSpent(worlds, rounds, z, chart, v, size, n);
    assert DeploysTo(worlds, rounds, z, chart, v);
  }

  // The claim is the protocol's first step.
  lemma ClaimIsStep(z: ZoneId, t: System)
    requires z != "" && Reaches(Resting(ClaimedLog(z), z, ClaimedWorld(z)), t)
    ensures Initial(Empty(z)) && Reaches(Empty(z), t)
  {
    assert Apply(Empty(z), Initialize(z, 0, 1)) == Resting(ClaimedLog(z), z, ClaimedWorld(z));
    ReachesByStep(Empty(z), Initialize(z, 0, 1), t);
  }

  // What faultless rounds from a fresh claim lead to, the protocol reaches from an empty status without a crash.
  lemma FromEmpty(z: ZoneId, w: World)
    requires z != "" && Arrives(ClaimedLog(z), ClaimedWorld(z), z, w)
    ensures Initial(Empty(z)) && exists log :: Ends(log, w) && Reaches(Empty(z), Resting(log, z, w))
  {
    var log :| Ends(log, w) && Reaches(Resting(ClaimedLog(z), z, ClaimedWorld(z)), Resting(log, z, w));
    ClaimIsStep(z, Resting(log, z, w));
  }
}
