// Optimistic status updates: UpdateStatus reads the object (possibly a stale copy), applies a callback to a
// copy, bumps the zone version and writes conditionally on the resource version, retrying on conflict.
module Store {
  import opened Wrappers
  import opened Api
  import opened StatusObject

  datatype Obj = Obj(rv: int, status: Status)

  // Whether the callback asks for a write, and the status it leaves.
  type Callback = Status -> (bool, Status)

  // What one committed call stores on top of the object it read.
  function Committed(callback: Callback, zone: ZoneId, seen: Obj): Status {
    BumpZone(callback(seen.status).1, zone, seen.rv)
  }

  // What a commit stores of the status `left` by its callback, on an object at resource version `rv`: the zone's entry,
  // if it has one, gets a version above its own and above the object's; everything else is as left.
  ghost predicate Stamped(left: Status, now: Status, z: ZoneId, rv: int) {
    && now.ownership == left.ownership && SameOthers(left, now, z) && HasZone(now, z) == HasZone(left, z)
    && (HasZone(left, z) ==>
          var before, after := Own(left, z), Own(now, z);
          && after.zoneVersion > before.zoneVersion && after.zoneVersion > rv
          && (after.zoneVersion == before.zoneVersion + 1 || after.zoneVersion == rv + 1)
          && after.chartVersion == before.chartVersion && after.conditions == before.conditions)
    && (!HasZone(left, z) ==> now == left)
    && SamePlaces(left, now)
  }

  ghost predicate SamePlaces(left: Status, now: Status) {
    |now.zones| == |left.zones| && forall i :: 0 <= i < |now.zones| ==> now.zones[i].zoneId == left.zones[i].zoneId
  }

  lemma PutSamePlaces(s: Status, z: ZoneId, own: ZoneStatus)
    requires own.zoneId == z && HasZone(s, z)
    ensures SamePlaces(s, Put(s, z, own))
  {}

  lemma CommittedIsStamped(callback: Callback, zone: ZoneId, seen: Obj)
    ensures Stamped(callback(seen.status).1, Committed(callback, zone, seen), zone, seen.rv)
  {
    var left := callback(seen.status).1;
    if HasZone(left, zone) {
      var own := Own(left, zone);
      var next := own.(zoneVersion := if own.zoneVersion >= seen.rv + 1 then own.zoneVersion + 1 else seen.rv + 1);
      PutOwn(left, zone, next);
      PutSameOthers(left, zone, next);
      PutSamePlaces(left, zone, next);
    }
  }

  ghost predicate Increasing(log: seq<Obj>) {
    forall i, j :: 0 <= i < j < |log| ==> log[i].rv < log[j].rv
  }

  const MAX_ATTEMPTS := 5

  // ---- all interleavings of any number of calls ----

  // `Writing(at)` has read entry `at` of the history; `Finished(commit)` names the entry it wrote, if any.
  datatype Phase = Reading | Writing(at: nat) | Finished(commit: Option<nat>)

  datatype Call = Call(zone: ZoneId, callback: Callback, attempts: nat, phase: Phase)

  // `log` is the history of the obj, `author[j]` the call that wrote entry `j`.
  datatype State = State(log: seq<Obj>, author: seq<Option<nat>>, calls: map<nat, Call>)

  datatype Step =
    | Begin(id: nat, zone: ZoneId, callback: Callback)
    | Read(id: nat, at: nat)
    | Write(id: nat, rv: int)
    | GiveUp(id: nat)                   // object gone, request failed or context cancelled
    | Foreign(obj: Obj)              // a write by anyone else

  ghost predicate Enabled(s: State, step: Step) {
    match step
    case Begin(id, _, _) => id !in s.calls
    case Read(id, at) =>
      id in s.calls && s.calls[id].phase.Reading? && at < |s.log| && s.calls[id].attempts < MAX_ATTEMPTS
    case Write(id, rv) => id in s.calls && s.calls[id].phase.Writing? && |s.log| > 0 && rv > s.log[|s.log| - 1].rv
                          && s.calls[id].phase.at < |s.log|
    case GiveUp(id) => id in s.calls && !s.calls[id].phase.Finished?
    case Foreign(obj) => |s.log| > 0 && obj.rv > s.log[|s.log| - 1].rv
  }

  ghost function WithPhase(s: State, id: nat, phase: Phase): map<nat, Call>
    requires id in s.calls
  {
    s.calls[id := s.calls[id].(phase := phase)]
  }

  ghost function Apply(s: State, step: Step): State
    requires Enabled(s, step)
  {
    match step
    case Begin(id, zone, callback) => s.(calls := s.calls[id := Call(zone, callback, 0, Reading)])
    case Read(id, at) =>
      if s.calls[id].callback(s.log[at].status).0 then s.(calls := WithPhase(s, id, Writing(at)))
      else s.(calls := WithPhase(s, id, Finished(None)))
    case Write(id, rv) =>
      var call := s.calls[id];
      var seen := s.log[call.phase.at];
      if seen.rv == s.log[|s.log| - 1].rv then
        State(s.log + [Obj(rv, Committed(call.callback, call.zone, seen))], s.author + [Some(id)],
              WithPhase(s, id, Finished(Some(|s.log|))))
      else
        s.(calls := s.calls[id := call.(attempts := call.attempts + 1,
                                        phase := if call.attempts + 1 < MAX_ATTEMPTS then Reading else Finished(None))])
    case GiveUp(id) => s.(calls := WithPhase(s, id, Finished(None)))
    case Foreign(obj) => State(s.log + [obj], s.author + [None], s.calls)
  }

  ghost predicate Run(s: State, steps: seq<Step>, s': State)
    decreases |steps|
  {
    if steps == [] then s' == s
    else Enabled(s, steps[0]) && Run(Apply(s, steps[0]), steps[1..], s')
  }

  ghost predicate Initial(s: State) { |s.log| == 1 && s.author == [None] && s.calls == map[] }

  // Entry `j` of the history is the bumped result of call `id` on the entry right before it.
  ghost predicate AtomicCommit(s: State, j: nat, id: nat)
    requires 0 < j < |s.log| && id in s.calls
  {
    var call := s.calls[id];
    call.callback(s.log[j - 1].status).0 && s.log[j].status == Committed(call.callback, call.zone, s.log[j - 1])
  }

  // The history is a sequential run: every entry a call wrote is its atomic commit, and no call wrote twice.
  ghost predicate Sequential(s: State) {
    && |s.author| == |s.log| > 0 && s.author[0].None?
    && (forall j :: 0 < j < |s.log| && s.author[j].Some? ==>
          && s.author[j].value in s.calls
          && s.calls[s.author[j].value].phase == Finished(Some(j))
          && AtomicCommit(s, j, s.author[j].value))
  }

  // A call has attempts left until it finishes, and one about to write has read an entry its callback changes.
  ghost predicate CallOk(call: Call, log: seq<Obj>) {
    match call.phase
    case Finished(_) => call.attempts <= MAX_ATTEMPTS
    case Reading => call.attempts < MAX_ATTEMPTS
    case Writing(at) => call.attempts < MAX_ATTEMPTS && at < |log| && call.callback(log[at].status).0
  }

  ghost predicate Inv(s: State) {
    Sequential(s) && Increasing(s.log) && forall id :: id in s.calls ==> CallOk(s.calls[id], s.log)
  }

  // A step that extends the history, keeps every call's identity and leaves finished calls alone.
  ghost predicate Extends(s: State, t: State) {
    && s.log <= t.log && s.author <= t.author
    && (forall id :: id in s.calls ==>
          && id in t.calls && t.calls[id].callback == s.calls[id].callback && t.calls[id].zone == s.calls[id].zone
          && (s.calls[id].phase.Finished? ==> t.calls[id].phase == s.calls[id].phase))
  }

  lemma OldEntriesStay(s: State, t: State, j: nat)
    requires Sequential(s) && Extends(s, t) && 0 < j < |s.log| && s.author[j].Some?
    ensures t.author[j].Some? && t.author[j].value in t.calls
    ensures t.calls[t.author[j].value].phase == Finished(Some(j)) && AtomicCommit(t, j, t.author[j].value)
  {
    assert AtomicCommit(s, j, s.author[j].value);
    assert t.author[j] == s.author[j] && t.log[j] == s.log[j] && t.log[j - 1] == s.log[j - 1];
  }

  lemma SequentialStays(s: State, t: State)
    requires Sequential(s) && Extends(s, t) && |t.author| == |t.log| <= |s.log| + 1
    requires |t.log| > |s.log| && t.author[|s.log|].Some? ==>
      var id := t.author[|s.log|].value;
      id in t.calls && t.calls[id].phase == Finished(Some(|s.log|)) && AtomicCommit(t, |s.log|, id)
    ensures Sequential(t)
  {
    assert t.author[0] == s.author[0];
    forall j | 0 < j < |s.log| && t.author[j].Some?
      ensures t.author[j].value in t.calls && t.calls[t.author[j].value].phase == Finished(Some(j))
      ensures AtomicCommit(t, j, t.author[j].value)
    {
      assert t.author[j] == s.author[j];
      OldEntriesStay(s, t, j);
    }
  }

  lemma WriteIsAtomic(s: State, id: nat, rv: int)
    requires Inv(s) && Enabled(s, Write(id, rv))
    ensures var t := Apply(s, Write(id, rv));
      Extends(s, t) && (|t.log| > |s.log| ==> t.author[|s.log|] == Some(id) && AtomicCommit(t, |s.log|, id))
  {
    var at, last := s.calls[id].phase.at, |s.log| - 1;
    if s.log[at].rv == s.log[last].rv {
      assert at == last;   // resource versions are never reused, so the read was not stale
    }
  }

  lemma CallsStayOk(s: State, step: Step)
    requires Inv(s) && Enabled(s, step)
    ensures var t := Apply(s, step); Increasing(t.log) && forall id :: id in t.calls ==> CallOk(t.calls[id], t.log)
  {
    var t := Apply(s, step);
    assert forall j :: 0 <= j < |s.log| ==> t.log[j] == s.log[j];
    forall id | id in t.calls ensures CallOk(t.calls[id], t.log) {
      if id in s.calls { assert CallOk(s.calls[id], s.log); }
    }
  }

  lemma StepKeepsInv(s: State, step: Step)
    requires Inv(s) && Enabled(s, step)
    ensures Inv(Apply(s, step))
  {
    if step.Write? { WriteIsAtomic(s, step.id, step.rv); }
    SequentialStays(s, Apply(s, step));
    CallsStayOk(s, step);
  }

  // No lost update: whatever the interleaving and however stale the reads, the history is a sequential run in
  // which each call commits at most once, on the state it really read.
  lemma {:induction false} NoLostUpdate(s: State, steps: seq<Step>, s': State)
    requires Inv(s) && Run(s, steps, s')
    ensures Inv(s')
    ensures forall i, j :: 0 < i < j < |s'.log| && s'.author[i].Some? ==> s'.author[i] != s'.author[j]
    ensures forall j :: 0 < j < |s'.log| && s'.author[j].Some? ==>
      && s'.author[j].value in s'.calls
      && var call := s'.calls[s'.author[j].value];
         call.callback(s'.log[j - 1].status).0
         && Stamped(call.callback(s'.log[j - 1].status).1, s'.log[j].status, call.zone, s'.log[j - 1].rv)
    decreases |steps|
  {
    if steps != [] {
      StepKeepsInv(s, steps[0]);
      NoLostUpdate(Apply(s, steps[0]), steps[1..], s');
    } else {
      forall j | 0 < j < |s'.log| && s'.author[j].Some?
        ensures var call := s'.calls[s'.author[j].value];
          call.callback(s'.log[j - 1].status).0
          && Stamped(call.callback(s'.log[j - 1].status).1, s'.log[j].status, call.zone, s'.log[j - 1].rv)
      {
        assert AtomicCommit(s', j, s'.author[j].value);
        CommittedIsStamped(s'.calls[s'.author[j].value].callback, s'.calls[s'.author[j].value].zone, s'.log[j - 1]);
      }
    }
  }

  lemma InitialInv(s: State)
    requires Initial(s)
    ensures Inv(s)
  {}

  // ---- zone versions over a run ----

  // A callback that leaves the other zones alone and does not raise the zone's version itself.
  ghost predicate Modest(callback: Callback, zone: ZoneId) {
    forall s: Status :: KeepsVersion(s, callback(s).1, zone)
  }

  ghost predicate KeepsVersion(s: Status, t: Status, zone: ZoneId) {
    SameOthers(s, t, zone) && (HasZone(t, zone) ==> Own(t, zone).zoneVersion <= Own(s, zone).zoneVersion)
  }

  // No zone's version is ahead of the object's.
  ghost predicate Bounded(o: Obj) {
    o.rv >= 0 && forall z :: HasZone(o.status, z) ==> Own(o.status, z).zoneVersion <= o.rv
  }

  ghost predicate StepModest(step: Step) {
    match step
    case Begin(_, zone, callback) => Modest(callback, zone)
    case Foreign(obj) => Bounded(obj)
    case _ => true
  }

  ghost predicate AllBounded(s: State) {
    && (forall j :: 0 <= j < |s.log| ==> Bounded(s.log[j]))
    && (forall id :: id in s.calls ==> Modest(s.calls[id].callback, s.calls[id].zone))
  }

  lemma CommitBounded(seen: Obj, callback: Callback, zone: ZoneId, rv: int)
    requires Bounded(seen) && Modest(callback, zone) && rv > seen.rv
    ensures Bounded(Obj(rv, Committed(callback, zone, seen)))
  {
    var left, now := callback(seen.status).1, Committed(callback, zone, seen);
    CommittedIsStamped(callback, zone, seen);
    assert KeepsVersion(seen.status, left, zone);
    forall z | HasZone(now, z) ensures Own(now, z).zoneVersion <= rv {
      if z != zone {
        SameOthersOwn(left, now, zone, z);
        SameOthersOwn(seen.status, left, zone, z);
      }
    }
  }

  lemma StepKeepsBounds(s: State, step: Step)
    requires Inv(s) && AllBounded(s) && Enabled(s, step) && StepModest(step)
    ensures AllBounded(Apply(s, step))
  {
    var t := Apply(s, step);
    if step.Write? {
      var call := s.calls[step.id];
      var seen := s.log[call.phase.at];
      if seen.rv == s.log[|s.log| - 1].rv { CommitBounded(seen, call.callback, call.zone, step.rv); }
    }
    assert forall j :: 0 <= j < |s.log| ==> t.log[j] == s.log[j];
  }

  ghost predicate ModestRun(s: State, steps: seq<Step>, s': State)
    decreases |steps|
  {
    if steps == [] then s' == s
    else Enabled(s, steps[0]) && StepModest(steps[0]) && ModestRun(Apply(s, steps[0]), steps[1..], s')
  }

  lemma {:induction false} RunKeepsBounds(s: State, steps: seq<Step>, s': State)
    requires Inv(s) && AllBounded(s) && ModestRun(s, steps, s')
    ensures Inv(s') && AllBounded(s') && Run(s, steps, s')
    decreases |steps|
  {
    if steps != [] {
      StepKeepsInv(s, steps[0]);
      StepKeepsBounds(s, steps[0]);
      RunKeepsBounds(Apply(s, steps[0]), steps[1..], s');
    }
  }

  // Entry `j` was written by a call of zone `z` and left the zone's entry present.
  ghost predicate WrittenBy(s: State, j: nat, z: ZoneId) {
    && 0 < j < |s.log| == |s.author| && s.author[j].Some? && s.author[j].value in s.calls
    && s.calls[s.author[j].value].zone == z && HasZone(s.log[j].status, z)
  }

  // Two commits of one zone that leave its entry present have increasing zone versions, whatever is interleaved.
  lemma CommitsRaiseVersions(s: State, steps: seq<Step>, s': State, i: nat, j: nat, z: ZoneId)
    requires Initial(s) && Bounded(s.log[0]) && ModestRun(s, steps, s')
    requires i < j && WrittenBy(s', i, z) && WrittenBy(s', j, z)
    ensures Own(s'.log[i].status, z).zoneVersion < Own(s'.log[j].status, z).zoneVersion
  {
    InitialInv(s);
    RunKeepsBounds(s, steps, s');
    NoLostUpdate(s, steps, s');
    assert Bounded(s'.log[i]);
    assert i < j - 1 ==> s'.log[i].rv < s'.log[j - 1].rv;
  }

  // ---- the retry loop itself ----

  // The stored object with its history; other writers act between any two requests.
  class ApiServer {
    var log: seq<Obj>

    ghost predicate Valid()
      reads this
    {
      |log| > 0 && Increasing(log)
    }

    // A read may be served from a cache that lags behind.
    method Get() returns (at: nat, obj: Obj)
      requires Valid()
      ensures at < |log| && obj == log[at]
    {
      at :| 0 <= at < |log|;
      obj := log[at];
    }

    // Any number of writes by others.
    method Interference()
      requires Valid()
      modifies this
      ensures Valid() && old(log) <= log
    {
      var writes: nat := *;
      while writes > 0
        invariant Valid() && old(log) <= log
      {
        var obj: Obj := *;
        if obj.rv > log[|log| - 1].rv {
          log := log + [obj];
        }
        writes := writes - 1;
      }
    }

    // A conditional write: it succeeds only if nothing was written since `rv`.
    method Update(rv: int, status: Status) returns (conflict: bool)
      requires Valid()
      modifies this
      ensures Valid() && conflict == (rv != old(log)[|old(log)| - 1].rv)
      ensures conflict ==> log == old(log)
      ensures !conflict ==> |log| == |old(log)| + 1 && log[..|old(log)|] == old(log) && log[|old(log)|].status == status
    {
      var last := log[|log| - 1];
      conflict := rv != last.rv;
      if !conflict {
        log := log + [Obj(last.rv + 1, status)];
      }
    }
  }

  datatype Answer = Unchanged | Stored | Cancelled | ConflictError

  // An attempt that met a conflict: the entry read, and a later one that was the last when the write was requested.
  datatype Conflict = Conflict(at: nat, last: nat)

  ghost predicate Met(c: Conflict, log: seq<Obj>, callback: Callback) {
    c.at < c.last < |log| && callback(log[c.at].status).0
  }

  // Entry `j` is the callback's bumped result on the entry right before it.
  ghost predicate IsCommit(j: nat, log: seq<Obj>, callback: Callback, zone: ZoneId) {
    && 0 < j < |log| && callback(log[j - 1].status).0
    && Stamped(callback(log[j - 1].status).1, log[j].status, zone, log[j - 1].rv)
  }

  // One attempt: read, apply the callback to a copy, write it back if the callback asks for it. None for a conflict.
  method Attempt(server: ApiServer, zone: ZoneId, callback: Callback, cancelled: bool)
    returns (answer: Option<Answer>, ghost written: nat, ghost conflict: Conflict)
    requires server.Valid()
    modifies server
    ensures server.Valid() && old(server.log) <= server.log
    ensures answer.None? ==> !cancelled && Met(conflict, server.log, callback)
    ensures answer != Some(ConflictError)
    ensures answer == Some(Unchanged) ==> exists at :: 0 <= at < |server.log| && !callback(server.log[at].status).0
    ensures answer == Some(Cancelled) ==> cancelled
    ensures answer == Some(Stored) ==>
      !cancelled && |old(server.log)| <= written && IsCommit(written, server.log, callback, zone)
  {
    written, conflict := 0, Conflict(0, 0);
    server.Interference();
    var at, obj := server.Get();
    ghost var before := server.log;
    server.Interference();
    assert server.log[at] == before[at];
    var result := callback(obj.status);
    if !result.0 {
      answer := Some(Unchanged);
      return;
    }
    if cancelled {
      answer := Some(Cancelled);
      return;
    }
    var copy := new AnyApplicationStatus(result.1);
    copy.IncrementZoneVersion(zone, obj.rv);
    written := |server.log|;
    conflict := Conflict(at, written - 1);
    assert obj.rv == server.log[written - 1].rv <==> at == written - 1;
    ghost var current := server.log;
    var refused := server.Update(obj.rv, copy.Value());
    answer := None;
    if !refused {
      assert server.log[..written] == current && server.log[written - 1] == obj;
      CommittedIsStamped(callback, zone, obj);
      server.Interference();
      answer := Some(Stored);
    }
  }

  // `mine` collects the positions this call wrote, `conflicts` its attempts in vain.
  method UpdateStatus(server: ApiServer, zone: ZoneId, callback: Callback, cancelled: nat -> bool)
    returns (answer: Answer, ghost mine: set<nat>, ghost conflicts: seq<Conflict>)
    requires server.Valid()
    modifies server
    ensures server.Valid() && old(server.log) <= server.log
    ensures forall k :: 0 <= k < |conflicts| ==> Met(conflicts[k], server.log, callback)
    ensures if answer == ConflictError then |conflicts| == 5 else |conflicts| < 5
    ensures forall k: nat :: k < |conflicts| ==> !cancelled(k)
    ensures answer == Cancelled ==> cancelled(|conflicts|)
    ensures answer == Unchanged ==> exists at :: 0 <= at < |server.log| && !callback(server.log[at].status).0
    ensures answer == Stored <==> mine != {}
    ensures answer == Stored ==>
      exists j :: mine == {j} && |old(server.log)| <= j && IsCommit(j, server.log, callback, zone)
  {
    mine, conflicts := {}, [];
    var attempt := 0;
    while attempt < MAX_ATTEMPTS
      invariant server.Valid() && old(server.log) <= server.log && mine == {}
      invariant |conflicts| == attempt <= MAX_ATTEMPTS
      invariant forall k :: 0 <= k < |conflicts| ==> Met(conflicts[k], server.log, callback)
      invariant forall k: nat :: k < |conflicts| ==> !cancelled(k)
    {
      var result, written, conflict := Attempt(server, zone, callback, cancelled(attempt));
      if result.Some? {
        answer := result.value;
        mine := if answer == Stored then {written} else {};
        return;
      }
      conflicts := conflicts + [conflict];
      attempt := attempt + 1;
    }
    answer := ConflictError;
  }

  // ---- UpdateCondition ----

  function DropAll(s: Status, z: ZoneId, types: seq<ConditionType>): Status
    decreases |types|
  {
    if types == [] then s else DropAll(WithoutCondition(s, z, types[0], z), z, types[1..])
  }

  predicate AnyPresent(s: Status, z: ZoneId, types: seq<ConditionType>)
    decreases |types|
  {
    types != [] && (HasCondition(Own(s, z).conditions, types[0], z)
                    || AnyPresent(WithoutCondition(s, z, types[0], z), z, types[1..]))
  }

  // A job's report: its condition set, the conditions of other phases removed.
  function Reported(s: Status, z: ZoneId, c: Condition, types: seq<ConditionType>): (bool, Status) {
    var s1 := AddOrUpdate(s, z, c);
    (Own(s1, z).conditions != Own(s, z).conditions || AnyPresent(s1, z, types), DropAll(s1, z, types))
  }

  lemma {:induction false} DropAllElements(s: Status, z: ZoneId, types: seq<ConditionType>)
    ensures var n := DropAll(s, z, types);
      && n.ownership == s.ownership && SameOthers(s, n, z) && HasZone(n, z) == HasZone(s, z)
      && Own(n, z).chartVersion == Own(s, z).chartVersion && Own(n, z).zoneVersion == Own(s, z).zoneVersion
      && forall d :: d in Own(n, z).conditions <==> d in Own(s, z).conditions && !(d.zone == z && d.ctype in types)
    decreases |types|
  {
    if types != [] {
      var s1 := WithoutCondition(s, z, types[0], z);
      if HasZone(s, z) {
        var own := Own(s, z).(conditions := Drop(Own(s, z).conditions, types[0], z));
        DropElements(Own(s, z).conditions, types[0], z);
        PutOwn(s, z, own);
        PutSameOthers(s, z, own);
      }
      DropAllElements(s1, z, types[1..]);
      assert forall t :: t in types <==> t == types[0] || t in types[1..];
    }
  }

  lemma {:induction false} NothingPresent(s: Status, z: ZoneId, types: seq<ConditionType>)
    ensures AnyPresent(s, z, types) <==> exists d :: d in Own(s, z).conditions && d.zone == z && d.ctype in types
    ensures !AnyPresent(s, z, types) ==> DropAll(s, z, types) == s
    decreases |types|
  {
    if types != [] {
      var s1 := WithoutCondition(s, z, types[0], z);
      assert forall t :: t in types <==> t == types[0] || t in types[1..];
      NothingPresent(s1, z, types[1..]);
      if HasCondition(Own(s, z).conditions, types[0], z) {
        var k := ConditionIndex(Own(s, z).conditions, types[0], z);
        assert Own(s, z).conditions[k] in Own(s, z).conditions;
      } else {
        DropNothing(Own(s, z).conditions, types[0], z);
        if HasZone(s, z) { PutOwn(s, z, Own(s, z)); }
        assert s1 == s;
        forall d | d in Own(s, z).conditions && d.zone == z ensures d.ctype != types[0] {
          Member(Own(s, z).conditions, d);
        }
      }
    }
  }

  // What a report leaves: its own condition says what it says, the superseded ones are gone, every other condition
  // and every other entry stays, and the flag tells exactly whether anything changed.
  lemma ReportStored(s: Status, z: ZoneId, c: Condition, types: seq<ConditionType>)
    requires c.zone == z && c.ctype !in types
    ensures var (updated, n) := Reported(s, z, c, types);
      && n.ownership == s.ownership && SameOthers(s, n, z) && HasZone(n, z)
      && Own(n, z).chartVersion == Own(s, z).chartVersion
      && (exists d :: d in Own(n, z).conditions && KeyOf(d) == KeyOf(c)
                      && d.code == c.code && d.reason == c.reason && d.msg == c.msg)
      && (forall t :: t in types ==> !HasCondition(Own(n, z).conditions, t, z))
      && (forall d: Condition :: d.zone != z || (d.ctype !in types && d.ctype != c.ctype) ==>
            (d in Own(n, z).conditions <==> d in Own(s, z).conditions))
      && (updated <==> n != s)
  {
    var before := Own(s, z).conditions;
    var s1 := AddOrUpdate(s, z, c);
    PutOwn(s, z, Own(s, z).(conditions := Upsert(before, c)));
    PutSameOthers(s, z, Own(s, z).(conditions := Upsert(before, c)));
    UpsertElements(before, c);
    DropAllElements(s1, z, types);
    NothingPresent(s1, z, types);
    var n := DropAll(s1, z, types);
    forall t | t in types ensures !HasCondition(Own(n, z).conditions, t, z) {
      Present(Own(n, z).conditions, t, z);
    }
    ReportChanges(s, z, c, types);
  }

  lemma ReportChanges(s: Status, z: ZoneId, c: Condition, types: seq<ConditionType>)
    requires c.zone == z && c.ctype !in types
    ensures var (updated, n) := Reported(s, z, c, types); updated <==> n != s
  {
    var before, s1 := Own(s, z).conditions, AddOrUpdate(s, z, c);
    PutOwn(s, z, Own(s, z).(conditions := Upsert(before, c)));
    UpsertElements(before, c);
    NothingPresent(s1, z, types);
    DropAllElements(s1, z, types);
    var n := DropAll(s1, z, types);
    if AnyPresent(s1, z, types) {
      var d :| d in Own(s1, z).conditions && d.zone == z && d.ctype in types;
      assert d in before && d !in Own(n, z).conditions;
    } else if Upsert(before, c) == before {
      assert before != [];
    }
  }

  method UpdateCondition(status: AnyApplicationStatus, z: ZoneId, c: Condition, types: seq<ConditionType>)
    returns (updated: bool)
    modifies status
    ensures (updated, status.Value()) == Reported(old(status.Value()), z, c, types)
  {
    updated := status.AddOrUpdate(c, z);
    ghost var s1, changed := status.Value(), updated;
    assert types[0..] == types;
    for i := 0 to |types|
      invariant DropAll(s1, z, types) == DropAll(status.Value(), z, types[i..])
      invariant (changed || AnyPresent(s1, z, types)) == (updated || AnyPresent(status.Value(), z, types[i..]))
      invariant status.ownership == s1.ownership
    {
      assert types[i..][0] == types[i] && types[i..][1..] == types[i + 1..];
      var removed := status.Remove(types[i], z);
      updated := updated || removed;
    }
    assert types[|types|..] == [];
  }
}
