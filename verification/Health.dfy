// Deployment and health of an application from its expected and its live resources: the bundle's view, and the
// independent aggregation the operation job uses.
module Health {
  import opened Wrappers
  import opened Api

  // The codes of the gitops engine.
  type HealthCode = c: Code | c in {Healthy, Suspended, Progressing, Missing, Degraded, Unknown} witness Healthy

  // From best to worst, as the gitops engine orders them.
  function Rank(c: HealthCode): int {
    match c
    case Healthy => 0
    case Suspended => 1
    case Progressing => 2
    case Missing => 3
    case Degraded => 4
    case _ => 5
  }

  predicate IsWorse(current: HealthCode, other: HealthCode) { Rank(other) > Rank(current) }

  // Each named code is worse than the one before.
  lemma HealthOrder()
    ensures IsWorse(Healthy, Suspended) && IsWorse(Suspended, Progressing) && IsWorse(Progressing, Missing)
    ensures IsWorse(Missing, Degraded) && IsWorse(Degraded, Unknown)
    ensures forall a, b, c :: IsWorse(a, b) && IsWorse(b, c) ==> IsWorse(a, c)
    ensures forall a, b :: IsWorse(a, b) ==> !IsWorse(b, a)
  {}

  datatype Kind = Kind(group: string, version: string, kind: string)

  datatype Name = Name(namespace: string, name: string)

  // The health check of a live resource: an error, no opinion, or a code.
  datatype Check = CheckError | NoOpinion | Checked(code: HealthCode)

  datatype Resource = Resource(kind: Kind, name: Name, check: Check)

  // What the bundle matches by, and what the aggregation matches by: the latter ignores the API version.
  predicate SameObject(a: Resource, b: Resource) { a.kind == b.kind && a.name == b.name }

  predicate SameKey(a: Resource, b: Resource) {
    a.kind.group == b.kind.group && a.kind.kind == b.kind.kind && a.name == b.name
  }

  // The first live resource of a kind and name: later duplicates are skipped.
  function Lookup(available: seq<Resource>, kind: Kind, name: Name): Option<Resource> {
    if available == [] then None
    else
      var earlier, last := Lookup(available[..|available| - 1], kind, name), available[|available| - 1];
      if earlier.Some? then earlier else if last.kind == kind && last.name == name then Some(last) else None
  }

  // The last live resource under a key: later duplicates overwrite.
  function LookupKey(managed: seq<Resource>, e: Resource): Option<Resource> {
    if managed == [] then None
    else if SameKey(managed[|managed| - 1], e) then Some(managed[|managed| - 1])
    else LookupKey(managed[..|managed| - 1], e)
  }

  lemma {:induction false} LookupIs(available: seq<Resource>, kind: Kind, name: Name)
    ensures Lookup(available, kind, name).Some? <==>
      exists i :: 0 <= i < |available| && available[i].kind == kind && available[i].name == name
    ensures Lookup(available, kind, name).Some? ==>
      exists i :: 0 <= i < |available| && Lookup(available, kind, name).value == available[i]
                  && available[i].kind == kind && available[i].name == name
                  && forall j :: 0 <= j < i ==> !(available[j].kind == kind && available[j].name == name)
  {
    if available != [] {
      var p := available[..|available| - 1];
      LookupIs(p, kind, name);
      assert available == p + [available[|available| - 1]];
    }
  }

  lemma {:induction false} LookupKeyIs(managed: seq<Resource>, e: Resource)
    ensures LookupKey(managed, e).Some? <==> exists i :: 0 <= i < |managed| && SameKey(managed[i], e)
    ensures LookupKey(managed, e).Some? ==>
      exists i :: 0 <= i < |managed| && LookupKey(managed, e).value == managed[i] && SameKey(managed[i], e)
                  && forall j :: i < j < |managed| ==> !SameKey(managed[j], e)
  {
    if managed != [] {
      var p := managed[..|managed| - 1];
      LookupKeyIs(p, e);
      assert managed == p + [managed[|managed| - 1]];
    }
  }

  type Index = map<Kind, map<Name, Resource>>

  ghost predicate IndexOf(m: Index, available: seq<Resource>) {
    forall k, n :: Lookup(available, k, n) == if k in m && n in m[k] then Some(m[k][n]) else None
  }

  method ToResourceMap(available: seq<Resource>) returns (m: Index)
    ensures IndexOf(m, available)
  {
    m := map[];
    for i := 0 to |available|
      invariant IndexOf(m, available[..i])
    {
      var r := available[i];
      assert available[..i + 1][..i] == available[..i];
      if r.kind !in m {
        m := m[r.kind := map[]];
      }
      if r.name !in m[r.kind] {
        m := m[r.kind := m[r.kind][r.name := r]];
      }
    }
    assert available[..|available|] == available;
  }

  ghost predicate Deployed(available: seq<Resource>, expected: seq<Resource>) {
    forall i :: 0 <= i < |expected| ==> exists j :: 0 <= j < |available| && SameObject(available[j], expected[i])
  }

  method IsDeployed(available: seq<Resource>, expected: seq<Resource>) returns (deployed: bool)
    ensures deployed <==> Deployed(available, expected)
  {
    var m := ToResourceMap(available);
    for i := 0 to |expected|
      invariant Deployed(available, expected[..i])
    {
      var e := expected[i];
      LookupIs(available, e.kind, e.name);
      if e.kind !in m || e.name !in m[e.kind] {
        assert Lookup(available, e.kind, e.name).None?;
        return false;
      }
      assert Lookup(available, e.kind, e.name).Some?;
    }
    assert expected[..|expected|] == expected;
    deployed := true;
  }

  // What one expected resource contributes to the bundle's state; None when the check has no opinion.
  function BundleCheck(available: seq<Resource>, e: Resource): Check {
    var live := Lookup(available, e.kind, e.name);
    if live.None? then Checked(Missing) else live.value.check
  }

  function Worse(a: HealthCode, b: HealthCode): HealthCode { if IsWorse(a, b) then b else a }

  // The worst code of the expected resources; None if a check fails.
  function BundleState(available: seq<Resource>, expected: seq<Resource>): Option<HealthCode> {
    if expected == [] then Some(Healthy)
    else
      var earlier := BundleState(available, expected[..|expected| - 1]);
      var check := BundleCheck(available, expected[|expected| - 1]);
      if earlier.None? || check.CheckError? then None
      else if check.Checked? then Some(Worse(earlier.value, check.code)) else earlier
  }

  // The state is the worst contribution: no better than any, healthy or one of them; it fails exactly if one does.
  ghost predicate Worst(checks: seq<Check>, code: HealthCode) {
    && (forall i :: 0 <= i < |checks| && checks[i].Checked? ==> !IsWorse(code, checks[i].code))
    && (code == Healthy || exists i :: 0 <= i < |checks| && checks[i] == Checked(code))
  }

  ghost predicate SomeError(checks: seq<Check>) { exists i :: 0 <= i < |checks| && checks[i].CheckError? }

  lemma WorseStaysWorst(checks: seq<Check>, last: Check, code: HealthCode)
    requires Worst(checks, code)
    ensures Worst(checks + [last], if last.Checked? then Worse(code, last.code) else code)
  {
    var all, next := checks + [last], if last.Checked? then Worse(code, last.code) else code;
    if next == code && code != Healthy {
      var i :| 0 <= i < |checks| && checks[i] == Checked(code);
      assert all[i] == Checked(next);
    } else {
      assert all[|checks|] == last;
    }
  }

  ghost function BundleChecks(available: seq<Resource>, expected: seq<Resource>): (checks: seq<Check>)
    ensures |checks| == |expected|
    ensures forall i :: 0 <= i < |expected| ==> checks[i] == BundleCheck(available, expected[i])
  {
    if expected == [] then []
    else BundleChecks(available, expected[..|expected| - 1]) + [BundleCheck(available, expected[|expected| - 1])]
  }

  lemma {:induction false} BundleStateIsWorst(available: seq<Resource>, expected: seq<Resource>)
    ensures var checks, state := BundleChecks(available, expected), BundleState(available, expected);
      (state.None? <==> SomeError(checks)) && (state.Some? ==> Worst(checks, state.value))
  {
    if expected != [] {
      var p, e := expected[..|expected| - 1], expected[|expected| - 1];
      var earlier := BundleChecks(available, p);
      BundleStateIsWorst(available, p);
      assert BundleChecks(available, expected) == earlier + [BundleCheck(available, e)];
      assert forall i :: 0 <= i < |earlier| ==> (earlier + [BundleCheck(available, e)])[i] == earlier[i];
      if BundleState(available, p).Some? {
        WorseStaysWorst(earlier, BundleCheck(available, e), BundleState(available, p).value);
      }
    }
  }

  method DetermineState(available: seq<Resource>, expected: seq<Resource>) returns (state: Option<HealthCode>)
    ensures state == BundleState(available, expected)
  {
    var m := ToResourceMap(available);
    var code := Healthy;
    for i := 0 to |expected|
      invariant BundleState(available, expected[..i]) == Some(code)
    {
      var e := expected[i];
      assert expected[..i + 1][..i] == expected[..i];
      assert Lookup(available, e.kind, e.name) ==
             if e.kind in m && e.name in m[e.kind] then Some(m[e.kind][e.name]) else None;
      if e.kind !in m || e.name !in m[e.kind] {
        code := Worse(code, Missing);
      } else {
        match m[e.kind][e.name].check {
          case CheckError =>
            ErrorStays(available, expected, i + 1);
            return None;
          case NoOpinion =>
          case Checked(c) => code := Worse(code, c);
        }
      }
    }
    assert expected[..|expected|] == expected;
    state := Some(code);
  }

  lemma {:induction false} ErrorStays(available: seq<Resource>, expected: seq<Resource>, i: nat)
    requires i <= |expected| && BundleState(available, expected[..i]).None?
    ensures BundleState(available, expected).None?
    decreases |expected|
  {
    if i < |expected| {
      var p := expected[..|expected| - 1];
      assert p[..i] == expected[..i];
      ErrorStays(available, p, i);
    } else {
      assert expected[..i] == expected;
    }
  }

  // The aggregation's fold: how many resources counted, and the worst code so far; failing checks are skipped.
  function AggregateCheck(managed: seq<Resource>, e: Resource): Check {
    var live := LookupKey(managed, e);
    if live.None? then Checked(Missing)
    else if live.value.check.NoOpinion? then Checked(Healthy) else live.value.check
  }

  function AggregateFold(managed: seq<Resource>, template: seq<Resource>): (nat, HealthCode) {
    if template == [] then (0, Healthy)
    else
      var (count, code) := AggregateFold(managed, template[..|template| - 1]);
      var check := AggregateCheck(managed, template[|template| - 1]);
      if check.CheckError? then (count, code) else (count + 1, Worse(code, check.code))
  }

  function AggregateState(managed: seq<Resource>, template: seq<Resource>): HealthCode {
    var (count, code) := AggregateFold(managed, template);
    if count == 0 then Unknown else code
  }

  ghost function AggregateChecks(managed: seq<Resource>, template: seq<Resource>): (checks: seq<Check>)
    ensures |checks| == |template|
    ensures forall i :: 0 <= i < |template| ==> checks[i] == AggregateCheck(managed, template[i])
  {
    if template == [] then []
    else AggregateChecks(managed, template[..|template| - 1]) + [AggregateCheck(managed, template[|template| - 1])]
  }

  lemma {:induction false} AggregateFoldIsWorst(managed: seq<Resource>, template: seq<Resource>)
    ensures var checks, (count, code) := AggregateChecks(managed, template), AggregateFold(managed, template);
      Worst(checks, code) && (count == 0 <==> forall i :: 0 <= i < |checks| ==> checks[i].CheckError?)
  {
    if template != [] {
      var p, e := template[..|template| - 1], template[|template| - 1];
      var earlier := AggregateChecks(managed, p);
      AggregateFoldIsWorst(managed, p);
      assert AggregateChecks(managed, template) == earlier + [AggregateCheck(managed, e)];
      assert forall i :: 0 <= i < |earlier| ==> (earlier + [AggregateCheck(managed, e)])[i] == earlier[i];
      WorseStaysWorst(earlier, AggregateCheck(managed, e), AggregateFold(managed, p).1);
    }
  }

  // The aggregate is unknown if no check succeeds, else the worst of those that do.
  lemma AggregateStateIsWorst(managed: seq<Resource>, template: seq<Resource>)
    ensures var checks, code := AggregateChecks(managed, template), AggregateState(managed, template);
      if forall i :: 0 <= i < |checks| ==> checks[i].CheckError? then code == Unknown else Worst(checks, code)
  {
    AggregateFoldIsWorst(managed, template);
  }

  method GetAggregatedStatus(template: seq<Resource>, managed: seq<Resource>) returns (code: HealthCode)
    ensures code == AggregateState(managed, template)
  {
    code := Healthy;
    var statusCounts := 0;
    for i := 0 to |template|
      invariant AggregateFold(managed, template[..i]) == (statusCounts, code)
    {
      assert template[..i + 1][..i] == template[..i];
      var live := LookupKey(managed, template[i]);
      var status := Healthy;
      if live.Some? {
        if live.value.check.CheckError? {
          continue;
        }
        if live.value.check.Checked? {
          status := live.value.check.code;
        }
      } else {
        status := Missing;
      }
      statusCounts := statusCounts + 1;
      if IsWorse(code, status) {
        code := status;
      }
    }
    assert template[..|template|] == template;
    if statusCounts == 0 {
      code := Unknown;
    }
  }

  // A live expected resource that is degraded makes both states degraded or unknown.
  lemma DegradedWins(live: seq<Resource>, expected: seq<Resource>, i: nat)
    requires i < |expected|
    ensures BundleCheck(live, expected[i]) == Checked(Degraded) && BundleState(live, expected).Some? ==>
      BundleState(live, expected).value in {Degraded, Unknown}
    ensures AggregateCheck(live, expected[i]) == Checked(Degraded) ==>
      AggregateState(live, expected) in {Degraded, Unknown}
  {
    HealthOrder();
    BundleStateIsWorst(live, expected);
    AggregateStateIsWorst(live, expected);
    assert BundleChecks(live, expected)[i] == BundleCheck(live, expected[i]);
    assert AggregateChecks(live, expected)[i] == AggregateCheck(live, expected[i]);
  }

  // ---- the two views together ----

  // A missing resource makes the bundle at least Missing, unless a check fails.
  lemma {:induction false} NotDeployedIsMissing(available: seq<Resource>, expected: seq<Resource>)
    requires BundleState(available, expected).Some? && !Deployed(available, expected)
    ensures !IsWorse(BundleState(available, expected).value, Missing)
  {
    if expected != [] {
      var p, e := expected[..|expected| - 1], expected[|expected| - 1];
      LookupIs(available, e.kind, e.name);
      if Deployed(available, p) {
        assert expected == p + [e];
      } else {
        NotDeployedIsMissing(available, p);
      }
    }
  }

  // No two live resources share a key, and whatever matches an expected resource by key has its API version.
  ghost predicate Aligned(live: seq<Resource>, expected: seq<Resource>) {
    && (forall i, j :: 0 <= i < j < |live| ==> !SameKey(live[i], live[j]))
    && (forall r, e :: r in live && e in expected && SameKey(r, e) ==> SameObject(r, e))
  }

  lemma SameLookup(live: seq<Resource>, expected: seq<Resource>, e: Resource)
    requires Aligned(live, expected) && e in expected
    ensures Lookup(live, e.kind, e.name) == LookupKey(live, e)
  {
    LookupIs(live, e.kind, e.name);
    LookupKeyIs(live, e);
    assert forall i :: 0 <= i < |live| ==> (SameObject(live[i], e) <==> SameKey(live[i], e));
    var a, b := Lookup(live, e.kind, e.name), LookupKey(live, e);
    assert a.Some? <==> b.Some?;
    if a.Some? {
      var i :| 0 <= i < |live| && live[i] == a.value;
      var j :| 0 <= j < |live| && live[j] == b.value;
      assert SameKey(live[i], live[j]) && SameKey(live[j], live[i]);
      assert i == j;
    }
  }

  lemma {:induction false} SameFold(live: seq<Resource>, all: seq<Resource>, expected: seq<Resource>)
    requires Aligned(live, all) && forall e :: e in expected ==> e in all
    requires BundleState(live, expected).Some?
    ensures AggregateFold(live, expected) == (|expected|, BundleState(live, expected).value)
  {
    if expected != [] {
      var p, e := expected[..|expected| - 1], expected[|expected| - 1];
      SameLookup(live, all, e);
      SameFold(live, all, p);
    }
  }

  // The aggregators agree on every aligned cluster whose checks succeed, except for an empty chart, which one
  // calls healthy and the other unknown.
  lemma AggregatorsAgree(live: seq<Resource>, expected: seq<Resource>)
    requires Aligned(live, expected) && BundleState(live, expected).Some?
    ensures BundleState(live, expected) == Some(AggregateState(live, expected)) <==> expected != []
  {
    SameFold(live, expected, expected);
  }

  // Without alignment they can differ: a resource live under another API version is missing for the bundle only.
  lemma VersionsTellThemApart()
    ensures exists live, expected ::
      expected != [] && BundleState(live, expected) == Some(Missing) && AggregateState(live, expected) == Healthy
  {
    var name := Name("ns", "web");
    var e := Resource(Kind("apps", "v1", "Deployment"), name, NoOpinion);
    var r := Resource(Kind("apps", "v1beta1", "Deployment"), name, NoOpinion);
    assert [e][..0] == [] && [r][..0] == [];
    assert Lookup([r], e.kind, e.name).None?;
    assert LookupKey([r], e) == Some(r);
    assert BundleState([r], [e]) == Some(Missing);
    assert AggregateFold([r], [e]) == (1, Healthy);
    assert [e] != [] && AggregateState([r], [e]) == Healthy;
  }
}
