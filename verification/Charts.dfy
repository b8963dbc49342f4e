// The version index of one chart: versions are registered under their printed form and the newest one
// inside a range is looked up. The grammar of ranges is foreign; a range is any predicate on versions.
module Charts {
  import opened Wrappers
  import opened Versions

  type VersionRange = Version -> bool

  datatype ChartVersion = Specific(version: Version) | Range(range: VersionRange)

  // `v` is registered, in range, and no registered in-range version is newer.
  ghost predicate IsLatest(registered: set<Version>, range: VersionRange, v: Version) {
    && v in registered && range(v)
    && forall w :: w in registered && range(w) ==> !w.IsNewerThan(v)
  }

  function Elements(versions: seq<Version>): set<Version> { set v | v in versions }

  lemma OneMore(versions: seq<Version>, i: nat)
    requires i < |versions|
    ensures Elements(versions[..i + 1]) == Elements(versions[..i]) + {versions[i]}
  {
    assert versions[..i + 1] == versions[..i] + [versions[i]];
  }

  class ChartVersions {
    var charts: map<string, Version>

    ghost predicate Valid()
      reads this
    {
      forall k :: k in charts ==> WellFormed(charts[k]) && ToText(charts[k]) == k
    }

    ghost function Registered(): set<Version>
      reads this
    {
      charts.Values
    }

    constructor ()
      ensures Valid() && Registered() == {}
    {
      charts := map[];
    }

    method AddVersion(version: Version)
      requires Valid() && WellFormed(version)
      modifies this
      ensures Valid() && Registered() == old(Registered()) + {version}
    {
      var key := ToText(version);
      if key in charts {
        ToTextInjective(charts[key], version);
      }
      ghost var before := charts;
      charts := charts[key := version];
      assert charts[key] == version;
      assert forall k :: k in before ==> k in charts && charts[k] == before[k];
    }

    method UpdateVersions(semanticVersions: seq<Version>)
      requires Valid() && forall k :: 0 <= k < |semanticVersions| ==> WellFormed(semanticVersions[k])
      modifies this
      ensures Valid() && Registered() == After(old(Registered()), Update(semanticVersions))
    {
      for i := 0 to |semanticVersions|
        invariant Valid() && Registered() == old(Registered()) + Elements(semanticVersions[..i])
      {
        AddVersion(semanticVersions[i]);
        OneMore(semanticVersions, i);
      }
      assert semanticVersions[..|semanticVersions|] == semanticVersions;
    }

    method Exists(version: Version) returns (found: bool)
      requires Valid() && WellFormed(version)
      ensures found <==> version in Registered()
    {
      found := ToText(version) in charts;
      if found {
        ToTextInjective(charts[ToText(version)], version);
      }
    }

    // The entries are visited in any order, as the concurrent map yields them.
    method GetLatestFor(range: VersionRange) returns (latest: Option<Version>)
      requires Valid()
      ensures Answers(Registered(), range, latest)
      ensures latest.Some? ==> forall w :: w in Registered() && range(w) ==>
        !LargerNumbers(w, latest.value) && (SameNumbers(w, latest.value) ==> !LargerPre(w.pre, latest.value.pre))
    {
      latest := None;
      var todo := charts.Keys;
      while todo != {}
        invariant todo <= charts.Keys
        invariant latest.Some? ==> latest.value in Registered() && range(latest.value)
        invariant forall k :: k in charts && k !in todo && range(charts[k]) ==>
          latest.Some? && !charts[k].IsNewerThan(latest.value)
        decreases todo
      {
        var key :| key in todo;
        var version := charts[key];
        todo := todo - {key};
        if range(version) {
          PrecedenceFlip(version, version);
          if latest.None? {
            latest := Some(version);
          } else if version.IsNewerThan(latest.value) {
            PrecedenceFlip(version, latest.value);
            forall k | k in charts && k !in todo && k != key && range(charts[k])
              ensures !charts[k].IsNewerThan(version)
            {
              PrecedenceTransitive(charts[k], latest.value, version);
            }
            latest := Some(version);
          }
        }
      }
      forall w | latest.Some? && w in Registered() && range(w)
        ensures !LargerNumbers(w, latest.value)
        ensures SameNumbers(w, latest.value) ==> !LargerPre(w.pre, latest.value.pre)
      {
        NewerExactlyWhen(w, latest.value);
      }
    }

    // The lookup behind AddAndGetLatest; an empty index is filled from the repository first.
    method PullVersion(wanted: ChartVersion, fetched: seq<Version>) returns (chosen: Option<Version>)
      requires Valid() && forall k :: 0 <= k < |fetched| ==> WellFormed(fetched[k])
      requires wanted.Specific? ==> WellFormed(wanted.version)
      modifies this
      ensures Valid()
      ensures Registered() == After(old(Registered()), Pull(wanted, fetched))
      ensures wanted.Specific? ==> chosen == if wanted.version in Registered() then Some(wanted.version) else None
      ensures wanted.Range? ==> Answers(Registered(), wanted.range, chosen)
    {
      if charts == map[] {
        UpdateVersions(fetched);
      } else {
        var k :| k in charts;
        assert charts[k] in Registered();
      }
      match wanted {
        case Specific(version) =>
          var found := Exists(version);
          chosen := if found then Some(version) else None;
        case Range(range) =>
          chosen := GetLatestFor(range);
      }
    }
  }

  // Two choices of the same index tie in precedence, whatever the iteration order was.
  lemma LatestUnique(registered: set<Version>, range: VersionRange, v: Version, w: Version)
    requires IsLatest(registered, range, v) && IsLatest(registered, range, w)
    ensures v.Equal(w)
  {
    PrecedenceFlip(v, w);
  }

  // ---- runs of the index ----

  // The operations that touch the index: registering what the repository offers, and looking a version up, which
  // fills an empty index first.
  datatype Operation = Update(fetched: seq<Version>) | Pull(wanted: ChartVersion, fetched: seq<Version>)

  function After(registered: set<Version>, op: Operation): set<Version> {
    match op
    case Update(fetched) => registered + Elements(fetched)
    case Pull(_, fetched) => if registered == {} then Elements(fetched) else registered
  }

  // What the index holds before each operation and at the end.
  ghost predicate IndexRun(history: seq<set<Version>>, ops: seq<Operation>) {
    && |history| == |ops| + 1
    && forall i {:trigger ops[i]} :: 0 <= i < |ops| ==> history[i + 1] == After(history[i], ops[i])
  }

  lemma {:induction false} NothingIsForgotten(history: seq<set<Version>>, ops: seq<Operation>, i: nat, j: nat)
    requires IndexRun(history, ops) && i <= j < |history|
    ensures history[i] <= history[j]
    decreases j - i
  {
    if i < j {
      NothingIsForgotten(history, ops, i, j - 1);
      assert history[j] == After(history[j - 1], ops[j - 1]);
    }
  }

  // What GetLatestFor promises of its answer.
  ghost predicate Answers(registered: set<Version>, range: VersionRange, latest: Option<Version>) {
    && (latest.Some? <==> exists v :: v in registered && range(v))
    && (latest.Some? ==> IsLatest(registered, range, latest.value))
  }

  // Over any run of the index the answer for a fixed range never gets older, and once found stays found; it gets
  // newer only by a version registered in between, and does so whenever one was.
  lemma ChoiceNeverOlder(history: seq<set<Version>>, ops: seq<Operation>, range: VersionRange, i: nat, j: nat,
                         before: Option<Version>, after: Option<Version>)
    requires IndexRun(history, ops) && i <= j < |history|
    requires Answers(history[i], range, before) && Answers(history[j], range, after)
    ensures before.Some? ==> after.Some? && !before.value.IsNewerThan(after.value)
    ensures before.Some? && after.value.IsNewerThan(before.value) ==> after.value in history[j] - history[i]
    ensures before.Some? ==>
      (after.value.IsNewerThan(before.value) <==>
        exists v :: v in history[j] - history[i] && range(v) && v.IsNewerThan(before.value))
  {
    NothingIsForgotten(history, ops, i, j);
    if before.Some? {
      assert before.value in history[j];
      if v :| v in history[j] - history[i] && range(v) && v.IsNewerThan(before.value) {
        PrecedenceFlip(v, before.value);
        if !after.value.IsNewerThan(before.value) {
          PrecedenceTransitive(v, after.value, before.value);
        }
      }
    }
  }
}
