// The runs of the deployment, undeployment and operation jobs: polling, deadlines, bounded retries and reports.
module JobRuns {
  import opened Wrappers
  import opened Versions
  import opened Api

  const RETRY_ATTEMPTS := 3

  datatype Reason = NoReason | SyncError | Timeout

  datatype Report = Report(code: Code, reason: Reason)

  // Every reading of the clock takes the next time of a fixed sequence.
  class Clock {
    const times: nat -> int
    var pos: nat

    constructor (times: nat -> int)
      ensures this.times == times && pos == 0
    {
      this.times := times;
      pos := 0;
    }

    method Now() returns (t: int)
      modifies this
      ensures t == times(old(pos)) && pos == old(pos) + 1
    {
      t := times(pos);
      pos := pos + 1;
    }
  }

  // The clock does not run backwards and passes every deadline.
  ghost predicate Runs(times: nat -> int) {
    && (forall i: nat, j: nat :: Ordered(times, i, j))
    && (forall deadline: int :: Passed(times, deadline))
  }

  ghost predicate Ordered(times: nat -> int, i: nat, j: nat) { i <= j ==> times(i) <= times(j) }

  ghost predicate Passed(times: nat -> int, deadline: int) {
    exists n: nat :: times(n) > deadline
  }

  // The number of clock readings after which `deadline` has certainly passed.
  ghost function Horizon(times: nat -> int, deadline: int): (n: nat)
    requires Runs(times)
    ensures times(n) > deadline
  {
    assert Passed(times, deadline);
    var n: nat :| times(n) > deadline;
    n
  }

  lemma HorizonAhead(times: nat -> int, deadline: int, pos: nat)
    requires Runs(times)
    ensures times(pos) <= deadline ==> pos < Horizon(times, deadline)
  {
    var n := Horizon(times, deadline);
    assert Ordered(times, n, pos);
  }

  ghost function Remaining(times: nat -> int, deadline: int, pos: nat): nat
    requires Runs(times)
  {
    var n := Horizon(times, deadline);
    if n > pos then n - pos else 0
  }

  ghost predicate AllInProgress(reports: seq<Report>, code: Code) {
    forall i :: 0 <= i < |reports| ==> reports[i].code == code
  }

  // In-progress reports only, then exactly one final report.
  ghost predicate EndsWith(reports: seq<Report>, progress: Code, final: Code) {
    |reports| > 0 && AllInProgress(reports[..|reports| - 1], progress) && reports[|reports| - 1].code == final
  }

  lemma LastReport(reports: seq<Report>, last: Report, progress: Code)
    requires AllInProgress(reports, progress)
    ensures EndsWith(reports + [last], progress, last.code)
    ensures last.code == progress ==> AllInProgress(reports + [last], progress)
  {
    assert (reports + [last])[..|reports|] == reports;
  }

  predicate IsFailureReport(r: Report) { r.reason != NoReason }

  function Count(reports: seq<Report>, p: Report -> bool): nat {
    if reports == [] then 0
    else Count(reports[..|reports| - 1], p) + (if p(reports[|reports| - 1]) then 1 else 0)
  }

  lemma CountAppend(reports: seq<Report>, r: Report, p: Report -> bool)
    ensures Count(reports + [r], p) == Count(reports, p) + (if p(r) then 1 else 0)
  {
    assert (reports + [r])[..|reports|] == reports;
  }

  datatype SyncOutcome = SyncFailed | AllDeployed | NotYetDeployed

  datatype Ending = Succeeded | SyncFailure | TimedOut | Stopped

  // The time that `n` attempts may take.
  function Together(n: nat, timeout: int): int {
    if n == 0 then 0 else Together(n - 1, timeout) + timeout
  }

  lemma {:induction false} TogetherIs(n: nat, timeout: int)
    ensures Together(n, timeout) == n * timeout
  {
    if n > 0 {
      TogetherIs(n - 1, timeout);
      assert n * timeout == (n - 1) * timeout + timeout;
    }
  }

  // No cycle before `poll` ended the deployment, and none found it stopped.
  ghost predicate StillDeploying(outcomes: nat -> SyncOutcome, stopped: nat -> bool, poll: nat) {
    forall q: nat :: q < poll ==> outcomes(q).NotYetDeployed? && !stopped(q)
  }

  lemma DeployOn(outcomes: nat -> SyncOutcome, stopped: nat -> bool, poll: nat)
    requires StillDeploying(outcomes, stopped, poll) && outcomes(poll).NotYetDeployed? && !stopped(poll)
    ensures StillDeploying(outcomes, stopped, poll + 1)
  {}

  // Attempts given up for a timeout.
  ghost predicate AllTimeouts(reports: seq<Report>) {
    forall i :: 0 <= i < |reports| ==> reports[i] == Report(Pull, Timeout)
  }

  // The last report of a deployment that ends.
  function FinalReport(ending: Ending): Report
    requires !ending.Stopped?
  {
    match ending
    case Succeeded => Report(Done, NoReason)
    case SyncFailure => Report(Failure, SyncError)
    case TimedOut => Report(Failure, Timeout)
  }

  class DeployRun {
    var code: Code
    var startTime: int
    var attempt: nat
    const timeout: int
    const clock: Clock
    var reports: seq<Report>

    constructor (clock: Clock, timeout: int)
      modifies clock
      ensures this.clock == clock && this.timeout == timeout && fresh(this)
      ensures code == Pull && attempt == 1 && reports == []
      ensures startTime == clock.times(old(clock.pos)) && clock.pos == old(clock.pos) + 1
    {
      this.clock, this.timeout := clock, timeout;
      code, attempt, reports := Pull, 1, [];
      new;
      startTime := clock.Now();
    }

    method UpdateStatus(code: Code, reason: Reason)
      modifies this`code, this`reports
      ensures this.code == code && reports == old(reports) + [Report(code, reason)]
    {
      this.code := code;
      reports := reports + [Report(code, reason)];
    }

    // One cycle: None when the job goes on.
    method RunSyncCycle(outcome: SyncOutcome) returns (ending: Option<Ending>, checked: int)
      requires attempt <= RETRY_ATTEMPTS
      modifies this, clock
      ensures attempt <= RETRY_ATTEMPTS
      ensures clock.pos >= old(clock.pos)
      ensures outcome.SyncFailed? ==>
        ending == Some(SyncFailure) && reports == old(reports) + [Report(Failure, SyncError)]
      ensures outcome.AllDeployed? ==> ending == Some(Succeeded) && reports == old(reports) + [Report(Done, NoReason)]
      ensures outcome.NotYetDeployed? ==>
        && clock.pos > old(clock.pos) && checked == clock.times(old(clock.pos))
        && var late := old(startTime) + timeout < checked;
        && (!late ==> ending.None? && reports == old(reports))
        && (late && old(attempt) < RETRY_ATTEMPTS ==> ending.None? && reports == old(reports) + [Report(Pull, Timeout)])
        && (late && old(attempt) == RETRY_ATTEMPTS ==>
              ending == Some(TimedOut) && reports == old(reports) + [Report(Failure, Timeout)])
      ensures if ending.None? && reports != old(reports)
        then attempt == old(attempt) + 1 && startTime == clock.times(old(clock.pos) + 1)
        else attempt == old(attempt) && startTime == old(startTime)
    {
      ending, checked := None, 0;
      if outcome.SyncFailed? {
        UpdateStatus(Failure, SyncError);
        return Some(SyncFailure), checked;
      }
      if outcome.AllDeployed? {
        UpdateStatus(Done, NoReason);
        return Some(Succeeded), checked;
      }
      checked := clock.Now();
      if startTime + timeout < checked {
        if attempt < RETRY_ATTEMPTS {
          attempt := attempt + 1;
          startTime := clock.Now();
          UpdateStatus(Pull, Timeout);
        } else {
          UpdateStatus(Failure, Timeout);
          ending := Some(TimedOut);
        }
      }
    }

    ghost function Left(): nat
      reads this, clock
      requires Runs(clock.times)
    {
      Remaining(clock.times, startTime + timeout, clock.pos)
    }

    // A cycle that does not end the job spends an attempt and its whole timeout, or comes closer to the deadline.
    method Poll(outcome: SyncOutcome) returns (ending: Option<Ending>)
      requires attempt <= RETRY_ATTEMPTS && Runs(clock.times) && clock.pos > 0
      modifies this, clock
      ensures attempt <= RETRY_ATTEMPTS && clock.pos > 0
      ensures ending.None? && attempt == old(attempt) ==>
        startTime == old(startTime) && reports == old(reports) && Left() < old(Left())
      ensures ending.None? && attempt != old(attempt) ==>
        && attempt == old(attempt) + 1 && startTime > old(startTime) + timeout
        && reports == old(reports) + [Report(Pull, Timeout)]
      ensures outcome.AllDeployed? <==> ending == Some(Succeeded)
      ensures outcome.SyncFailed? <==> ending == Some(SyncFailure)
      ensures ending.Some? ==> attempt == old(attempt) && match ending.value
        case Succeeded => reports == old(reports) + [Report(Done, NoReason)]
        case SyncFailure => reports == old(reports) + [Report(Failure, SyncError)]
        case TimedOut =>
          && reports == old(reports) + [Report(Failure, Timeout)] && attempt == RETRY_ATTEMPTS
          && clock.times(clock.pos - 1) > old(startTime) + timeout
        case Stopped => false
    {
      ghost var pos := clock.pos;
      HorizonAhead(clock.times, startTime + timeout, pos);
      var checked;
      ending, checked := RunSyncCycle(outcome);
      assert Ordered(clock.times, pos, pos + 1) && Ordered(clock.times, pos, clock.pos - 1);
    }

    // The job always ends, at the first cycle that deploys everything or fails to synchronize, after a cycle that
    // finds it stopped, or by timing out. Its reports are in-progress ones followed by exactly one final report,
    // unless it is stopped; a run that times out has used every attempt and lasted longer than all timeouts together.
    method Run(outcomes: nat -> SyncOutcome, stopped: nat -> bool) returns (ending: Ending, poll: nat)
      requires attempt == 1 && reports == [] && Runs(clock.times)
      requires clock.pos > 0 && startTime == clock.times(clock.pos - 1)
      modifies this, clock
      ensures StillDeploying(outcomes, stopped, poll)
      ensures ending == Succeeded <==> outcomes(poll).AllDeployed?
      ensures ending == SyncFailure <==> outcomes(poll).SyncFailed?
      ensures ending == Stopped ==> stopped(poll)
      ensures if ending == Stopped then AllTimeouts(reports)
              else |reports| > 0 && AllTimeouts(reports[..|reports| - 1])
                   && reports[|reports| - 1] == FinalReport(ending)
      ensures |reports| == attempt - 1 + (if ending == Stopped then 0 else 1)
      ensures attempt <= RETRY_ATTEMPTS
      ensures ending == TimedOut ==> attempt == |reports| == 3
      ensures clock.pos > 0
      ensures ending == TimedOut ==> clock.times(clock.pos - 1) - old(startTime) > Together(RETRY_ATTEMPTS, timeout)
    {
      poll := 0;
      ghost var first := startTime;
      while true
        invariant 1 <= attempt <= RETRY_ATTEMPTS && clock.pos > 0
        invariant AllTimeouts(reports) && |reports| == attempt - 1
        invariant startTime - first >= Together(attempt - 1, timeout)
        invariant StillDeploying(outcomes, stopped, poll)
        decreases RETRY_ATTEMPTS - attempt, Left()
      {
        ghost var before := reports;
        var maybeEnding := Poll(outcomes(poll));
        if maybeEnding.Some? {
          assert reports[..|reports| - 1] == before;
          return maybeEnding.value, poll;
        }
        if stopped(poll) {
          return Stopped, poll;
        }
        DeployOn(outcomes, stopped, poll);
        poll := poll + 1;
      }
    }
  }

  datatype CleanupOutcome = ListFailed | NothingInstalled | CleanupFailed | AllDeleted | SomeLeft

  predicate Finished(outcome: CleanupOutcome) { outcome.NothingInstalled? || outcome.AllDeleted? }

  predicate FailedCycle(outcome: CleanupOutcome) { outcome.ListFailed? || outcome.CleanupFailed? }

  predicate IsTimeoutReport(r: Report) { r.reason == Timeout }

  // At least the timeouts reported have passed.
  ghost predicate Timed(reports: seq<Report>, timeout: int, elapsed: int) {
    var n := Count(reports, IsTimeoutReport);
    if n > 0 then elapsed > Together(n, timeout) else elapsed >= 0
  }

  lemma TimedStep(reports: seq<Report>, last: Report, timeout: int, before: int, now: int)
    requires Timed(reports, timeout, before)
    requires if last.reason == Timeout then now > before + timeout else now >= before
    ensures Timed(reports + [last], timeout, now)
  {
    CountAppend(reports, last, IsTimeoutReport);
  }

  // One report a cycle, a synchronization error exactly for a failed one.
  ghost predicate Traced(reports: seq<Report>, outcomes: nat -> CleanupOutcome) {
    forall q: nat :: q < |reports| ==> (reports[q].reason == SyncError <==> FailedCycle(outcomes(q)))
  }

  // After `poll` cycles, `used` of them failed attempts: one report each, all in progress.
  ghost predicate Underway(reports: seq<Report>, outcomes: nat -> CleanupOutcome, poll: nat, used: int) {
    && |reports| == poll && AllInProgress(reports, Undeploy) && Traced(reports, outcomes)
    && Count(reports, IsFailureReport) == used
  }

  lemma UnderwayStep(reports: seq<Report>, last: Report, outcomes: nat -> CleanupOutcome, poll: nat, used: int)
    requires Underway(reports, outcomes, poll, used) && (last.reason == SyncError <==> FailedCycle(outcomes(poll)))
    ensures var next, now := reports + [last], used + (if IsFailureReport(last) then 1 else 0);
      && |next| == poll + 1 && Traced(next, outcomes) && Count(next, IsFailureReport) == now
      && EndsWith(next, Undeploy, last.code) && next[poll] == last
      && (last.code == Undeploy ==> Underway(next, outcomes, poll + 1, now) && AllInProgress(next, Undeploy))
  {
    CountAppend(reports, last, IsFailureReport);
    LastReport(reports, last, Undeploy);
  }

  // No cycle before `poll` finished, and none found the job stopped.
  ghost predicate KeptGoing(outcomes: nat -> CleanupOutcome, stopped: nat -> bool, poll: nat) {
    forall q: nat :: q < poll ==> !Finished(outcomes(q)) && !stopped(q)
  }

  lemma GoOn(outcomes: nat -> CleanupOutcome, stopped: nat -> bool, poll: nat)
    requires KeptGoing(outcomes, stopped, poll) && !Finished(outcomes(poll)) && !stopped(poll)
    ensures KeptGoing(outcomes, stopped, poll + 1)
  {}

  datatype UndeployEnding = Undeployed | GaveUp | UndeployStopped

  // A whole run of the undeployment job, over in cycle `poll` after `attempt` attempts and the time `elapsed`:
  // it ends at the first cycle that leaves nothing, after a cycle that finds it stopped, or by giving up. Each cycle
  // reports once, in progress but for one final report unless it is stopped; giving up means every attempt was used
  // and each failed attempt but the last was reported as such. Every timeout reported has passed.
  ghost predicate Ran(ending: UndeployEnding, poll: nat, attempt: int, reports: seq<Report>, timeout: int, elapsed: int,
                      outcomes: nat -> CleanupOutcome, stopped: nat -> bool) {
    && KeptGoing(outcomes, stopped, poll) && |reports| == poll + 1 && Traced(reports, outcomes)
    && (ending == Undeployed <==> Finished(outcomes(poll)))
    && (match ending
        case Undeployed => EndsWith(reports, Undeploy, Done)
        case GaveUp =>
          EndsWith(reports, Undeploy, Failure) && IsFailureReport(reports[poll]) && attempt == 3
        case UndeployStopped => AllInProgress(reports, Undeploy) && stopped(poll))
    && attempt <= RETRY_ATTEMPTS
    && Count(reports, IsFailureReport) == attempt - 1 + (if ending == GaveUp then 1 else 0)
    && Timed(reports, timeout, elapsed)
  }

  // Between two cycles the job goes on, or has ended as `Ran` says. `started` is when the current attempt began.
  ghost predicate Between(ending: Option<UndeployEnding>, poll: nat, attempt: int, reports: seq<Report>, timeout: int,
                          started: int, elapsed: int, outcomes: nat -> CleanupOutcome, stopped: nat -> bool) {
    if ending.Some? then Ran(ending.value, poll, attempt, reports, timeout, elapsed, outcomes, stopped)
    else Underway(reports, outcomes, poll, attempt - 1) && KeptGoing(outcomes, stopped, poll)
         && Timed(reports, timeout, started)
  }

  // What a cycle makes of the run.
  function Verdict(completed: bool, code: Code, stop: bool): Option<UndeployEnding> {
    if completed then Some(if code == Done then Undeployed else GaveUp)
    else if stop then Some(UndeployStopped) else None
  }

  // What one cycle reports, spends and takes: the attempt was the `tried`-th, begun at `was`, and now it is `attempt`,
  // begun at `started`, and `now` o'clock.
  ghost predicate CycleIs(outcome: CleanupOutcome, completed: bool, last: Report, tried: int, attempt: int,
                          timeout: int, was: int, started: int, now: int) {
    && (last.reason == SyncError <==> FailedCycle(outcome))
    && last.code == (if Finished(outcome) then Done else if completed then Failure else Undeploy)
    && (Finished(outcome) ==> last.reason == NoReason)
    && (completed <==> Finished(outcome) || (IsFailureReport(last) && tried == RETRY_ATTEMPTS))
    && attempt == tried + (if !completed && IsFailureReport(last) then 1 else 0)
    && (if last.reason == Timeout then now > was + timeout else now >= was)
    && (!completed ==> if last.reason == Timeout then started > was + timeout else started >= was)
  }

  lemma AfterCycle(completed: bool, ending: Option<UndeployEnding>, poll: nat, next: nat, tried: int, attempt: int,
                   before: seq<Report>, last: Report, after: seq<Report>, timeout: int,
                   first: int, was: int, started: int, now: int,
                   outcomes: nat -> CleanupOutcome, stopped: nat -> bool)
    requires Underway(before, outcomes, poll, tried - 1) && KeptGoing(outcomes, stopped, poll)
    requires Timed(before, timeout, was - first) && attempt <= RETRY_ATTEMPTS
    requires CycleIs(outcomes(poll), completed, last, tried, attempt, timeout, was, started, now)
    requires ending == Verdict(completed, last.code, stopped(poll)) && after == before + [last]
    requires next == if ending.Some? then poll else poll + 1
    ensures Between(ending, next, attempt, after, timeout, started - first, now - first, outcomes, stopped)
  {
    UnderwayStep(before, last, outcomes, poll, tried - 1);
    TimedStep(before, last, timeout, was - first, now - first);
    if !completed { TimedStep(before, last, timeout, was - first, started - first); }
    if !completed && !stopped(poll) { GoOn(outcomes, stopped, poll); }
  }

  class UndeployRun {
    var code: Code
    var startTime: int
    var attempt: nat
    const timeout: int
    const clock: Clock
    var reports: seq<Report>

    constructor (clock: Clock, timeout: int)
      modifies clock
      ensures this.clock == clock && this.timeout == timeout && fresh(this)
      ensures code == Undeploy && attempt == 1 && reports == []
      ensures startTime == clock.times(old(clock.pos)) && clock.pos == old(clock.pos) + 1
    {
      this.clock, this.timeout := clock, timeout;
      code, attempt, reports := Undeploy, 1, [];
      new;
      startTime := clock.Now();
    }

    method UpdateStatus(code: Code, reason: Reason)
      modifies this`code, this`reports
      ensures this.code == code && reports == old(reports) + [Report(code, reason)]
    {
      this.code := code;
      reports := reports + [Report(code, reason)];
    }

    method MaybeRetry(reason: Reason) returns (completed: bool)
      requires attempt <= RETRY_ATTEMPTS
      modifies this, clock
      ensures clock.pos >= old(clock.pos) && attempt <= RETRY_ATTEMPTS
      ensures completed <==> old(attempt) == RETRY_ATTEMPTS
      ensures code == if completed then Failure else Undeploy
      ensures if completed then startTime == old(startTime) && clock.pos == old(clock.pos)
              else startTime == clock.times(old(clock.pos)) && clock.pos == old(clock.pos) + 1
      ensures attempt == if completed then old(attempt) else old(attempt) + 1
      ensures reports == old(reports) + [Report(if completed then Failure else Undeploy, reason)]
    {
      if attempt < RETRY_ATTEMPTS {
        attempt := attempt + 1;
        startTime := clock.Now();
        UpdateStatus(Undeploy, reason);
        completed := false;
      } else {
        UpdateStatus(Failure, reason);
        completed := true;
      }
    }

    // One cycle makes exactly one report.
    method RunInner(outcome: CleanupOutcome) returns (completed: bool)
      requires attempt <= RETRY_ATTEMPTS && code == Undeploy
      modifies this, clock
      ensures clock.pos >= old(clock.pos) && attempt <= RETRY_ATTEMPTS
      ensures |reports| == |old(reports)| + 1 && reports[..|old(reports)|] == old(reports)
      ensures var last, exhausted := reports[|old(reports)|], old(attempt) == RETRY_ATTEMPTS;
        var late := outcome.SomeLeft? && old(startTime) + timeout < clock.times(old(clock.pos));
        var done := outcome.NothingInstalled? || outcome.AllDeleted?;
        var failing := outcome.ListFailed? || outcome.CleanupFailed? || late;
        && code == last.code
        && completed == (done || (failing && exhausted))
        && last.code == (if done then Done else if failing && exhausted then Failure else Undeploy)
        && last.reason == (if late then Timeout else if failing then SyncError else NoReason)
        && (if failing && !exhausted then
              clock.pos > old(clock.pos) && attempt == old(attempt) + 1 && startTime == clock.times(clock.pos - 1)
            else attempt == old(attempt) && startTime == old(startTime))
        && (outcome.SomeLeft? ==> clock.pos > old(clock.pos))
    {
      match outcome {
        case ListFailed =>
          completed := MaybeRetry(SyncError);
        case NothingInstalled =>
          UpdateStatus(Done, NoReason);
          completed := true;
        case CleanupFailed =>
          completed := MaybeRetry(SyncError);
        case AllDeleted =>
          UpdateStatus(Done, NoReason);
          completed := true;
        case SomeLeft =>
          var now := clock.Now();
          if startTime + timeout < now {
            completed := MaybeRetry(Timeout);
          } else {
            UpdateStatus(code, NoReason);
            completed := false;
          }
      }
    }

    ghost function Left(): nat
      reads this, clock
      requires Runs(clock.times)
    {
      Remaining(clock.times, startTime + timeout, clock.pos)
    }

    // What one cycle does to the run: one report, and either an attempt is spent or the deadline comes closer.
    method Poll(outcome: CleanupOutcome) returns (completed: bool, ghost last: Report)
      requires attempt <= RETRY_ATTEMPTS && code == Undeploy && Runs(clock.times)
      requires clock.pos > 0 && startTime <= clock.times(clock.pos - 1)
      modifies this, clock
      ensures attempt <= RETRY_ATTEMPTS && clock.pos > 0 && startTime <= clock.times(clock.pos - 1)
      ensures reports == old(reports) + [last] && code == last.code
      ensures CycleIs(outcome, completed, last, old(attempt), attempt, timeout, old(startTime), startTime,
                      clock.times(clock.pos - 1))
      ensures attempt == old(attempt) && !completed ==> Left() < old(Left())
    {
      ghost var pos, before := clock.pos, reports;
      HorizonAhead(clock.times, startTime + timeout, pos);
      completed := RunInner(outcome);
      last := reports[|before|];
      assert reports == before + [last];
      assert Ordered(clock.times, pos - 1, clock.pos - 1) && Ordered(clock.times, pos, clock.pos - 1);
    }

    // The run stands where it should at this moment.
    ghost predicate Sound(over: Option<UndeployEnding>, poll: nat, first: int, outcomes: nat -> CleanupOutcome,
                          stopped: nat -> bool)
      reads this, clock
    {
      && clock.pos > 0 && startTime <= clock.times(clock.pos - 1)
      && 1 <= attempt <= RETRY_ATTEMPTS && (over.None? ==> code == Undeploy)
      && Between(over, poll, attempt, reports, timeout, startTime - first, clock.times(clock.pos - 1) - first, outcomes,
                 stopped)
    }

    // One cycle and the look whether the job was stopped.
    method Advance(poll: nat, outcomes: nat -> CleanupOutcome, stopped: nat -> bool, ghost first: int)
      returns (over: Option<UndeployEnding>, next: nat)
      requires Runs(clock.times) && Sound(None, poll, first, outcomes, stopped)
      modifies this, clock
      ensures Sound(over, next, first, outcomes, stopped)
      ensures over.None? ==> attempt > old(attempt) || (attempt == old(attempt) && Left() < old(Left()))
    {
      ghost var before, was, tried := reports, startTime, attempt;
      var completed, last := Poll(outcomes(poll));
      over := Verdict(completed, code, stopped(poll));
      next := if over.Some? then poll else poll + 1;
      AfterCycle(completed, over, poll, next, tried, attempt, before, last, reports, timeout, first, was, startTime,
                 clock.times(clock.pos - 1), outcomes, stopped);
    }

    // The job always ends, as `Ran` says.
    method Run(outcomes: nat -> CleanupOutcome, stopped: nat -> bool) returns (ending: UndeployEnding, poll: nat)
      requires attempt == 1 && reports == [] && code == Undeploy && Runs(clock.times)
      requires clock.pos > 0 && startTime == clock.times(clock.pos - 1)
      modifies this, clock
      ensures clock.pos > 0
      ensures Ran(ending, poll, attempt, reports, timeout, clock.times(clock.pos - 1) - old(startTime), outcomes,
                  stopped)
    {
      poll := 0;
      var over: Option<UndeployEnding> := None;
      ghost var first := startTime;
      while over.None?
        invariant Sound(over, poll, first, outcomes, stopped)
        decreases over.None?, RETRY_ATTEMPTS - attempt, Left()
      {
        over, poll := Advance(poll, outcomes, stopped, first);
      }
      ending := over.value;
    }
  }

  // ---- the operation job ----

  // One cycle of the operation job: whether it exits, and the status it reports, if any.
  function OperationCycle(target: Option<Version>, current: Option<Version>, health: Code): (bool, Option<Code>) {
    if target.None? then (true, Some(Degraded))
    else if current.None? || !target.value.Equal(current.value) then (true, Some(Progressing))
    else if health == Healthy || health == Progressing then (false, Some(health))
    else if health == Degraded || health == Unknown || health == Missing then (true, Some(health))
    else (false, None)
  }

  ghost predicate Watching(target: Option<Version>, current: Option<Version>, health: Code) {
    && target.Some? && current.Some? && target.value.Equal(current.value)
    && health != Degraded && health != Unknown && health != Missing
  }

  // The good ones among the first `n` polled healths, in order.
  function GoodHealths(healths: nat -> Code, n: nat): seq<Code> {
    if n == 0 then []
    else
      var last := healths(n - 1);
      GoodHealths(healths, n - 1) + (if last == Healthy || last == Progressing then [last] else [])
  }

  // What the last poll says: why it is the last.
  function ExitReport(target: Option<Version>, current: Option<Version>, health: Code): Code {
    if target.None? then Degraded
    else if current.None? || !target.value.Equal(current.value) then Progressing
    else health
  }

  class OperationRun {
    // The version of the snapshot the job was created from; it never changes while the job runs.
    const current: Option<Version>
    var code: Code
    var reports: seq<Code>

    constructor (current: Option<Version>)
      ensures this.current == current && code == Progressing && reports == []
    {
      this.current, code, reports := current, Progressing, [];
    }

    method UpdateStatus(code: Code)
      modifies this
      ensures this.code == code && reports == old(reports) + [code]
    {
      this.code := code;
      reports := reports + [code];
    }

    method RunInner(target: Option<Version>, health: Code) returns (completed: bool)
      modifies this
      ensures var (exits, report) := OperationCycle(target, current, health);
        && completed == exits
        && reports == (if report.Some? then old(reports) + [report.value] else old(reports))
        && code == if report.Some? then report.value else health
    {
      if target.None? {
        UpdateStatus(Degraded);
        return true;
      }
      if current.None? || !target.value.Equal(current.value) {
        UpdateStatus(Progressing);
        return true;
      }
      code := health;
      match health {
        case Healthy =>
          UpdateStatus(health);
          return false;
        case Progressing =>
          UpdateStatus(health);
          return false;
        case Degraded =>
          UpdateStatus(health);
          return true;
        case Unknown =>
          UpdateStatus(health);
          return true;
        case Missing =>
          UpdateStatus(Missing);
          return true;
        case _ =>
          return false;
      }
    }

    // The job watches until the first poll that finds another target or bad health, or until its context ends at poll
    // `stoppedAt`. It reports exactly the good healths it polls, and then why it exits.
    method Run(targets: nat -> Option<Version>, healths: nat -> Code, stoppedAt: nat)
      returns (completed: bool, polls: nat)
      requires reports == []
      modifies this
      ensures polls <= stoppedAt
      ensures forall k: nat :: k < polls - (if completed then 1 else 0) ==> Watching(targets(k), current, healths(k))
      ensures !completed ==> polls == stoppedAt && reports == GoodHealths(healths, polls)
      ensures completed ==>
        && polls > 0 && !Watching(targets(polls - 1), current, healths(polls - 1))
        && reports == GoodHealths(healths, polls - 1) + [ExitReport(targets(polls - 1), current, healths(polls - 1))]
    {
      completed, polls := false, 0;
      while polls < stoppedAt
        invariant polls <= stoppedAt && reports == GoodHealths(healths, polls)
        invariant forall k: nat :: k < polls ==> Watching(targets(k), current, healths(k))
      {
        completed := RunInner(targets(polls), healths(polls));
        polls := polls + 1;
        if completed {
          assert !Watching(targets(polls - 1), current, healths(polls - 1));
          return;
        }
      }
    }
  }
}
