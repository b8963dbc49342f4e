// Folding a derived status into the current one: mergeStatus.
module Merge {
  import opened Api
  import opened StatusObject
  import opened Fsm

  function MergeOwnership(c: Ownership, n: Ownership): Ownership {
    Ownership(if n.epoch > c.epoch then n.epoch else c.epoch,
              if n.state != UnknownState then n.state else c.state,
              if c.owner == "" then n.owner else c.owner,
              if c.placements.None? then n.placements else c.placements)
  }

  // A newer condition of a different status replaces the ones of its type and zone.
  predicate Replaces(c: Condition, e: Condition) {
    KeyOf(e) == KeyOf(c) && e.time < c.time && e.code != c.code
  }

  function Replaced(conditions: seq<Condition>, c: Condition): (r: seq<Condition>)
    ensures |r| == |conditions|
    ensures forall i :: 0 <= i < |r| ==> r[i] == if Replaces(c, conditions[i]) then c else conditions[i]
  {
    if conditions == [] then []
    else [if Replaces(c, conditions[0]) then c else conditions[0]] + Replaced(conditions[1..], c)
  }

  function MergeCondition(conditions: seq<Condition>, c: Condition): seq<Condition> {
    if HasCondition(conditions, c.ctype, c.zone) then Replaced(conditions, c) else conditions + [c]
  }

  function MergeConditions(conditions: seq<Condition>, news: seq<Condition>): seq<Condition>
    decreases |news|
  {
    if news == [] then conditions
    else MergeConditions(MergeCondition(conditions, news[0]), news[1..])
  }

  function MergeStatus(c: Status, n: Status, z: ZoneId): Status {
    var s := c.(ownership := MergeOwnership(c.ownership, n.ownership));
    if HasZone(n, z) then
      Put(s, z, Own(s, z).(chartVersion := Own(n, z).chartVersion,
                           conditions := MergeConditions(Own(s, z).conditions, Own(n, z).conditions)))
    else RemoveZone(s, z)
  }

  // The "updated" result, which decides whether the merged status is written.
  predicate Updated(c: Status, n: Status, z: ZoneId) {
    || MergeOwnership(c.ownership, n.ownership) != c.ownership
    || (HasZone(n, z) && (|| Own(n, z).chartVersion != Own(c, z).chartVersion
                          || MergeConditions(Own(c, z).conditions, Own(n, z).conditions) != Own(c, z).conditions))
  }

  // ---- the merge in place ----

  method MergeInto(current: AnyApplicationStatus, n: Status, z: ZoneId) returns (updated: bool)
    modifies current
    ensures current.Value() == MergeStatus(old(current.Value()), n, z)
    ensures updated <==> Updated(old(current.Value()), n, z)
  {
    updated := MergeOwner(current, n);
    if HasZone(n, z) {
      var zoneUpdated := MergeZone(current, Own(n, z), z);
      updated := updated || zoneUpdated;
    } else {
      current.RemoveZone(z);
    }
  }

  method MergeOwner(current: AnyApplicationStatus, n: Status) returns (updated: bool)
    modifies current`ownership
    ensures current.ownership == MergeOwnership(old(current.ownership), n.ownership)
    ensures updated <==> current.ownership != old(current.ownership)
  {
    updated := false;
    if current.ownership.placements.None? && n.ownership.placements.Some? {
      current.ownership := current.ownership.(placements := n.ownership.placements);
      updated := true;
    }
    if n.ownership.state != UnknownState && current.ownership.state != n.ownership.state {
      current.ownership := current.ownership.(state := n.ownership.state);
      updated := true;
    }
    if current.ownership.owner == "" && n.ownership.owner != "" {
      current.ownership := current.ownership.(owner := n.ownership.owner);
      updated := true;
    }
    var epoch := if n.ownership.epoch > current.ownership.epoch then n.ownership.epoch else current.ownership.epoch;
    if current.ownership.epoch != epoch {
      current.ownership := current.ownership.(epoch := epoch);
      updated := true;
    }
  }

  method MergeZone(current: AnyApplicationStatus, own: ZoneStatus, z: ZoneId) returns (updated: bool)
    modifies current`zones
    ensures var before := Own(old(current.Value()), z);
      && current.Value() ==
           Put(old(current.Value()), z,
               before.(chartVersion := own.chartVersion,
                       conditions := MergeConditions(before.conditions, own.conditions)))
      && (updated <==> || own.chartVersion != before.chartVersion
                       || MergeConditions(before.conditions, own.conditions) != before.conditions)
  {
    ghost var s, before := current.Value(), Own(current.Value(), z);
    PutOwn(s, z, before);
    var i := current.GetOrCreateStatusFor(z);
    updated := false;
    if current.zones[i].chartVersion != own.chartVersion {
      current.zones := current.zones[i := current.zones[i].(chartVersion := own.chartVersion)];
      updated := true;
    }
    PutOwn(s, z, before.(chartVersion := own.chartVersion));
    var conditions, changed := MergeList(current.zones[i].conditions, own.conditions);
    current.zones := current.zones[i := current.zones[i].(conditions := conditions)];
    updated := updated || changed;
  }

  method MergeList(existing: seq<Condition>, news: seq<Condition>) returns (conditions: seq<Condition>, updated: bool)
    ensures conditions == MergeConditions(existing, news)
    ensures updated <==> conditions != existing
  {
    conditions, updated := existing, false;
    assert news[0..] == news;
    for k := 0 to |news|
      invariant MergeConditions(existing, news) == MergeConditions(conditions, news[k..])
      invariant Advances(existing, conditions)
      invariant updated <==> conditions != existing
    {
      assert news[k..][0] == news[k] && news[k..][1..] == news[k + 1..];
      ghost var was := conditions;
      var changed;
      conditions, changed := MergeOne(conditions, news[k]);
      AdvancesChanged(existing, was, conditions);
      updated := updated || changed;
    }
    assert news[|news|..] == [];
  }

  method MergeOne(existing: seq<Condition>, c: Condition) returns (conditions: seq<Condition>, updated: bool)
    ensures conditions == MergeCondition(existing, c) && Advances(existing, conditions)
    ensures updated <==> conditions != existing
  {
    conditions, updated := existing, false;
    var found := false;
    for j := 0 to |existing|
      invariant |conditions| == |existing|
      invariant found <==> exists m :: 0 <= m < j && KeyOf(existing[m]) == KeyOf(c)
      invariant updated <==> exists m :: 0 <= m < j && Replaces(c, existing[m])
      invariant forall m :: 0 <= m < |existing| ==>
        conditions[m] == if m < j && Replaces(c, existing[m]) then c else existing[m]
    {
      if conditions[j].ctype == c.ctype && conditions[j].zone == c.zone {
        if conditions[j].time < c.time {
          if conditions[j].code != c.code {
            conditions := conditions[j := c];
            updated := true;
          }
        }
        found := true;
      }
    }
    ghost var replaced := updated;
    FoundIsHas(existing, c, found);
    if !found {
      conditions := conditions + [c];
      updated := true;
    }
    MergedIs(existing, c, conditions, found, replaced);
  }

  lemma FoundIsHas(conditions: seq<Condition>, c: Condition, found: bool)
    requires found <==> exists m :: 0 <= m < |conditions| && KeyOf(conditions[m]) == KeyOf(c)
    ensures found == HasCondition(conditions, c.ctype, c.zone)
  {
    var i := ConditionIndex(conditions, c.ctype, c.zone);
    if i < |conditions| { assert KeyOf(conditions[i]) == KeyOf(c); }
    if m :| 0 <= m < |conditions| && KeyOf(conditions[m]) == KeyOf(c) { Member(conditions, conditions[m]); }
  }

  lemma MergedIs(was: seq<Condition>, c: Condition, conditions: seq<Condition>, found: bool, replaced: bool)
    requires found == HasCondition(was, c.ctype, c.zone)
    requires replaced <==> exists m :: 0 <= m < |was| && Replaces(c, was[m])
    requires |was| <= |conditions| && conditions[|was|..] == if found then [] else [c]
    requires forall m :: 0 <= m < |was| ==> conditions[m] == if Replaces(c, was[m]) then c else was[m]
    ensures conditions == MergeCondition(was, c) && Advances(was, conditions)
    ensures conditions != was <==> replaced || !found
  {
    assert conditions == conditions[..|was|] + conditions[|was|..];
    if !found {
      assert forall m :: 0 <= m < |was| ==> KeyOf(was[m]) != KeyOf(c);
      assert conditions[..|was|] == was;
    }
    if m :| 0 <= m < |was| && Replaces(c, was[m]) {
      assert conditions[m] == c != was[m];
    }
  }

  // Position by position the later list holds the same condition or one with a later transition time.
  ghost predicate Advances(before: seq<Condition>, after: seq<Condition>) {
    && |before| <= |after|
    && forall i :: 0 <= i < |before| ==>
      after[i] == before[i] || (KeyOf(after[i]) == KeyOf(before[i]) && before[i].time < after[i].time)
  }

  lemma AdvancesChanged(start: seq<Condition>, conditions: seq<Condition>, merged: seq<Condition>)
    requires Advances(start, conditions) && Advances(conditions, merged)
    ensures Advances(start, merged)
    ensures merged == start ==> conditions == start
  {
    if merged == start {
      forall i | 0 <= i < |start| ensures conditions[i] == start[i] {}
    }
  }

  lemma {:induction false} MergeAdvances(conditions: seq<Condition>, news: seq<Condition>)
    ensures Advances(conditions, MergeConditions(conditions, news))
    decreases |news|
  {
    if news != [] {
      MergeAdvances(MergeCondition(conditions, news[0]), news[1..]);
    }
  }

  // ---- what the merge promises ----

  // A merge never drops a condition of a kept zone, never moves one, and never lowers its transition time.
  lemma MergeKeepsConditions(c: Status, n: Status, z: ZoneId, i: nat)
    requires HasZone(n, z) && HasZone(c, z) && i < |Own(c, z).conditions|
    ensures var before, after := Own(c, z).conditions, Own(MergeStatus(c, n, z), z).conditions;
      && i < |after| && KeyOf(after[i]) == KeyOf(before[i]) && before[i].time <= after[i].time
      && (before[i].time == after[i].time ==> after[i] == before[i])
  {
    MergeOwn(c, n, z);
    MergeAdvances(Own(c, z).conditions, Own(n, z).conditions);
  }

  lemma {:induction false} RecentStays(conditions: seq<Condition>, news: seq<Condition>, i: nat)
    requires i < |conditions|
    requires forall d :: d in news && KeyOf(d) == KeyOf(conditions[i]) ==>
      d.time <= conditions[i].time || d.code == conditions[i].code
    ensures i < |MergeConditions(conditions, news)| && MergeConditions(conditions, news)[i] == conditions[i]
    decreases |news|
  {
    if news != [] {
      assert news[0] in news;
      RecentStays(MergeCondition(conditions, news[0]), news[1..], i);
    }
  }

  // A job report that is at least as recent as the derived one is never overwritten.
  lemma RecentReportStays(c: Status, n: Status, z: ZoneId, i: nat)
    requires HasZone(n, z) && HasZone(c, z) && i < |Own(c, z).conditions|
    requires var e := Own(c, z).conditions[i];
      forall d :: d in Own(n, z).conditions && KeyOf(d) == KeyOf(e) ==> d.time <= e.time || d.code == e.code
    ensures var after := Own(MergeStatus(c, n, z), z).conditions; i < |after| && after[i] == Own(c, z).conditions[i]
  {
    MergeOwn(c, n, z);
    RecentStays(Own(c, z).conditions, Own(n, z).conditions, i);
  }

  lemma MergeOwn(c: Status, n: Status, z: ZoneId)
    ensures var m := MergeStatus(c, n, z);
      && SameOthers(c, m, z) && HasZone(m, z) == HasZone(n, z)
      && m.ownership == MergeOwnership(c.ownership, n.ownership)
      && (HasZone(n, z) ==>
            Own(m, z) == Own(c, z).(chartVersion := Own(n, z).chartVersion,
                                    conditions := MergeConditions(Own(c, z).conditions, Own(n, z).conditions)))
  {
    var s := c.(ownership := MergeOwnership(c.ownership, n.ownership));
    assert Own(s, z) == Own(c, z);
    OthersLacksZone(s.zones, z);
    if HasZone(n, z) {
      var own := Own(s, z).(chartVersion := Own(n, z).chartVersion,
                            conditions := MergeConditions(Own(s, z).conditions, Own(n, z).conditions));
      PutOwn(s, z, own);
      PutSameOthers(s, z, own);
    }
  }

  // What is taken over from the derived ownership: its state unless unknown, its epoch if higher, its owner if there
  // was none, its placements if there were none.
  lemma MergeTakesOver(c: Status, n: Status, z: ZoneId)
    ensures var was, next, now := c.ownership, n.ownership, MergeStatus(c, n, z).ownership;
      && (next.state != UnknownState ==> now.state == next.state)
      && (next.state == UnknownState ==> now.state == was.state)
      && now.epoch >= was.epoch && now.epoch >= next.epoch && (now.epoch == was.epoch || now.epoch == next.epoch)
      && now.owner == (if was.owner != "" then was.owner else next.owner)
      && now.placements == (if was.placements.Some? then was.placements else next.placements)
  {}

  // Condition by condition: a newer one of another status replaces, a new one is added, everything else stays.
  ghost function Winner(was: map<Key, Condition>, news: map<Key, Condition>, k: Key): Condition
    requires k in was || k in news
  {
    if k !in news then was[k]
    else if k !in was then news[k]
    else if was[k].time < news[k].time && was[k].code != news[k].code then news[k]
    else was[k]
  }

  ghost function Winners(was: map<Key, Condition>, news: map<Key, Condition>): map<Key, Condition> {
    map k | k in was.Keys + news.Keys :: Winner(was, news, k)
  }

  lemma MergeOneRefines(conditions: seq<Condition>, c: Condition)
    requires UniqueConditions(conditions)
    ensures UniqueConditions(MergeCondition(conditions, c))
    ensures ConditionMap(MergeCondition(conditions, c)) == Winners(ConditionMap(conditions), map[KeyOf(c) := c])
  {
    if HasCondition(conditions, c.ctype, c.zone) {
      ReplacedRefines(conditions, c);
    } else {
      LookupIsMap(conditions, c.ctype, c.zone);
      InsertRefines(conditions, c);
      assert MergeCondition(conditions, c) == Insert(conditions, c);
    }
  }

  lemma ReplacedRefines(conditions: seq<Condition>, c: Condition)
    requires UniqueConditions(conditions) && HasCondition(conditions, c.ctype, c.zone)
    ensures UniqueConditions(Replaced(conditions, c))
    ensures ConditionMap(Replaced(conditions, c)) == Winners(ConditionMap(conditions), map[KeyOf(c) := c])
  {
    var m, r := ConditionMap(conditions), Replaced(conditions, c);
    var w := Winners(m, map[KeyOf(c) := c]);
    MapRepresents(conditions);
    LookupIsMap(conditions, c.ctype, c.zone);
    assert w.Keys == m.Keys;
    forall i | 0 <= i < |r| ensures KeyOf(r[i]) == KeyOf(conditions[i]) && KeyOf(r[i]) in w && r[i] == w[KeyOf(r[i])] {
      WinnerAt(conditions, m, c, i);
    }
    SameKeysUnique(conditions, r);
    KeysStay(conditions, r, m, w);
    MapIs(r, w);
  }

  lemma WinnerAt(conditions: seq<Condition>, m: map<Key, Condition>, c: Condition, i: nat)
    requires Represents(conditions, m) && i < |conditions|
    ensures var e := if Replaces(c, conditions[i]) then c else conditions[i];
      KeyOf(e) == KeyOf(conditions[i]) && KeyOf(e) in m && e == Winner(m, map[KeyOf(c) := c], KeyOf(e))
  {
    assert conditions[i] in conditions;
  }

  lemma SameKeysUnique(conditions: seq<Condition>, r: seq<Condition>)
    requires UniqueConditions(conditions) && |r| == |conditions|
    requires forall i :: 0 <= i < |r| ==> KeyOf(r[i]) == KeyOf(conditions[i])
    ensures UniqueConditions(r)
  {
    forall i, j | 0 <= i < j < |r| ensures KeyOf(r[i]) != KeyOf(r[j]) {
      assert KeyOf(conditions[i]) != KeyOf(conditions[j]);
    }
  }

  lemma KeysStay(conditions: seq<Condition>, r: seq<Condition>, m: map<Key, Condition>, w: map<Key, Condition>)
    requires Represents(conditions, m) && |r| == |conditions| && w.Keys == m.Keys
    requires forall i :: 0 <= i < |r| ==>
      KeyOf(r[i]) == KeyOf(conditions[i]) && KeyOf(r[i]) in w && r[i] == w[KeyOf(r[i])]
    ensures Represents(r, w)
  {
    forall k | k in w ensures w[k] in r && KeyOf(w[k]) == k {
      var i :| 0 <= i < |conditions| && conditions[i] == m[k];
      assert r[i] == w[k];
    }
  }

  // The merged list as a map: the winner for every key of either list.
  lemma {:induction false} MergeIsMapMerge(conditions: seq<Condition>, news: seq<Condition>)
    requires UniqueConditions(conditions) && UniqueConditions(news)
    ensures UniqueConditions(MergeConditions(conditions, news))
    ensures ConditionMap(MergeConditions(conditions, news)) == Winners(ConditionMap(conditions), ConditionMap(news))
    decreases |news|
  {
    if news == [] {
      assert Winners(ConditionMap(conditions), ConditionMap(news)) == ConditionMap(conditions);
    } else {
      var c, rest := news[0], news[1..];
      var next := MergeCondition(conditions, c);
      MergeOneRefines(conditions, c);
      MergeIsMapMerge(next, rest);
      MapRepresents(rest);
      forall k | k in ConditionMap(rest) ensures k != KeyOf(c) { assert ConditionMap(rest)[k] in rest; }
      WinnersStep(ConditionMap(conditions), ConditionMap(rest), c);
    }
  }

  lemma WinnersStep(was: map<Key, Condition>, rest: map<Key, Condition>, c: Condition)
    requires KeyOf(c) !in rest
    ensures Winners(Winners(was, map[KeyOf(c) := c]), rest) == Winners(was, rest[KeyOf(c) := c])
  {}

  // The own entry of a merge of well-formed statuses, condition by condition.
  lemma MergedEntry(c: Status, n: Status, z: ZoneId)
    requires WellFormedStatus(c) && WellFormedStatus(n) && HasZone(n, z)
    ensures ConditionMap(Own(MergeStatus(c, n, z), z).conditions) ==
            Winners(ConditionMap(Own(c, z).conditions), ConditionMap(Own(n, z).conditions))
    ensures Own(MergeStatus(c, n, z), z).chartVersion == Own(n, z).chartVersion
  {
    MergeOwn(c, n, z);
    OwnWellFormed(c, z);
    OwnWellFormed(n, z);
    MergeIsMapMerge(Own(c, z).conditions, Own(n, z).conditions);
  }

  // Merging the same derived status again changes nothing and reports no update.
  lemma MergeIdempotent(c: Status, n: Status, z: ZoneId)
    requires UniqueConditions(Own(n, z).conditions)
    ensures var m := MergeStatus(c, n, z); MergeStatus(m, n, z) == m && !Updated(m, n, z)
  {
    var m := MergeStatus(c, n, z);
    MergeOwn(c, n, z);
    var s := c.(ownership := MergeOwnership(c.ownership, n.ownership));
    if HasZone(n, z) {
      MergedIsSettled(Own(c, z).conditions, Own(n, z).conditions);
      SettledIsFixed(Own(m, z).conditions, Own(n, z).conditions);
      PutOwn(m, z, Own(m, z));
      assert m.(ownership := MergeOwnership(m.ownership, n.ownership)) == m;
    } else {
      OthersLacksZone(s.zones, z);
    }
  }

  // No condition of `news` would still change `conditions`.
  ghost predicate IsSettled(conditions: seq<Condition>, news: seq<Condition>) {
    forall k :: 0 <= k < |news| ==> MergeCondition(conditions, news[k]) == conditions
  }

  ghost predicate Quiet(conditions: seq<Condition>, c: Condition) {
    HasCondition(conditions, c.ctype, c.zone) && forall i :: 0 <= i < |conditions| ==> !Replaces(c, conditions[i])
  }

  lemma QuietIsFixed(conditions: seq<Condition>, c: Condition)
    requires Quiet(conditions, c)
    ensures MergeCondition(conditions, c) == conditions
  {}

  lemma MergedIsQuiet(conditions: seq<Condition>, c: Condition)
    ensures Quiet(MergeCondition(conditions, c), c)
  {
    var r := MergeCondition(conditions, c);
    if HasCondition(conditions, c.ctype, c.zone) {
      var i := ConditionIndex(conditions, c.ctype, c.zone);
      assert KeyOf(r[i]) == KeyOf(c);
      Member(r, r[i]);
    } else {
      assert c in r;
      Member(r, c);
      assert forall i :: 0 <= i < |conditions| ==> KeyOf(conditions[i]) != KeyOf(c);
    }
  }

  lemma QuietStays(conditions: seq<Condition>, c: Condition, d: Condition)
    requires Quiet(conditions, c) && KeyOf(c) != KeyOf(d)
    ensures Quiet(MergeCondition(conditions, d), c)
  {
    var r := MergeCondition(conditions, d);
    var i := ConditionIndex(conditions, c.ctype, c.zone);
    assert KeyOf(r[i]) == KeyOf(c);
    Member(r, r[i]);
  }

  lemma {:induction false} QuietThrough(conditions: seq<Condition>, news: seq<Condition>, c: Condition)
    requires Quiet(conditions, c) && forall k :: 0 <= k < |news| ==> KeyOf(news[k]) != KeyOf(c)
    ensures Quiet(MergeConditions(conditions, news), c)
    decreases |news|
  {
    if news != [] {
      QuietStays(conditions, c, news[0]);
      QuietThrough(MergeCondition(conditions, news[0]), news[1..], c);
    }
  }

  lemma {:induction false} MergedIsSettled(conditions: seq<Condition>, news: seq<Condition>)
    requires UniqueConditions(news)
    ensures IsSettled(MergeConditions(conditions, news), news)
    decreases |news|
  {
    if news != [] {
      var next := MergeCondition(conditions, news[0]);
      MergedIsQuiet(conditions, news[0]);
      QuietThrough(next, news[1..], news[0]);
      MergedIsSettled(next, news[1..]);
      var r := MergeConditions(conditions, news);
      QuietIsFixed(r, news[0]);
      forall k | 0 <= k < |news| ensures MergeCondition(r, news[k]) == r {
        if k > 0 { assert news[k] == news[1..][k - 1]; }
      }
    }
  }

  lemma {:induction false} SettledIsFixed(conditions: seq<Condition>, news: seq<Condition>)
    requires IsSettled(conditions, news)
    ensures MergeConditions(conditions, news) == conditions
    decreases |news|
  {
    if news != [] {
      forall k | 0 <= k < |news[1..]| ensures MergeCondition(conditions, news[1..][k]) == conditions {
        assert news[1..][k] == news[k + 1];
      }
      SettledIsFixed(conditions, news[1..]);
    }
  }

  // Uniqueness is needed: two derived conditions of one type and zone can take turns replacing each other.
  lemma DuplicatesDefeatIdempotence()
    ensures exists conditions, news ::
      MergeConditions(MergeConditions(conditions, news), news) != MergeConditions(conditions, news)
  {
    var e := Condition(DeploymentCondition, "z", Pull, 5, "", "", 0);
    var c1 := e.(time := 7);
    var c2 := e.(time := 6, code := Done);
    var news := [c1, c2];
    assert news[1..] == [c2] && [c2][1..] == [];
    assert MergeCondition([e], c1) == [e];
    assert MergeCondition([e], c2) == [c2];
    assert MergeConditions([e], news) == MergeConditions([e], [c2]) == [c2];
    assert MergeCondition([c2], c1) == [c1];
    assert MergeCondition([c1], c2) == [c1];
    assert MergeConditions([c2], news) == MergeConditions([c1], [c2]) == [c1];
    assert MergeConditions(MergeConditions([e], news), news) != MergeConditions([e], news);
  }

  // The flag never claims a change that did not happen. It misses a change exactly when the only effect is to
  // drop the zone's entry, or to create an entry with neither version nor conditions.
  lemma UpdatedMisses(c: Status, n: Status, z: ZoneId)
    ensures Updated(c, n, z) ==> MergeStatus(c, n, z) != c
    ensures MergeStatus(c, n, z) != c && !Updated(c, n, z) <==>
      && MergeOwnership(c.ownership, n.ownership) == c.ownership
      && HasZone(n, z) != HasZone(c, z)
      && (HasZone(n, z) ==> Own(n, z).chartVersion.None? && Own(n, z).conditions == [])
  {
    var m := MergeStatus(c, n, z);
    MergeOwn(c, n, z);
    OthersLacksZone(c.zones, z);
    if HasZone(n, z) {
      MergeAdvances(Own(c, z).conditions, Own(n, z).conditions);
      if HasZone(c, z) {
        PutOwn(c, z, Own(c, z));
      } else {
        NonemptyMerge(Own(n, z).conditions);
      }
    }
  }

  lemma NonemptyMerge(news: seq<Condition>)
    ensures MergeConditions([], news) == [] <==> news == []
  {
    if news != [] {
      assert MergeCondition([], news[0]) == [news[0]];
      MergeAdvances([news[0]], news[1..]);
    }
  }

  // For a status derived by a zone that still holds its entry the flag is exact.
  lemma FlagIsExact(s: Status, v: View, c: Status)
    requires v.Valid() && Derive(s, v).Derived? && HasZone(Derive(s, v).status, v.zone)
    ensures var n := Derive(s, v).status; Updated(c, n, v.zone) <==> MergeStatus(c, n, v.zone) != c
  {
    DeriveFrame(s, v);
    UpdatedMisses(c, Derive(s, v).status, v.zone);
  }

  // Merging keeps the lists maps.
  lemma {:induction false} MergeConditionsWellFormed(conditions: seq<Condition>, news: seq<Condition>, z: ZoneId)
    requires UniqueConditions(conditions) && forall i :: 0 <= i < |conditions| ==> conditions[i].zone == z
    requires forall i :: 0 <= i < |news| ==> news[i].zone == z
    ensures var r := MergeConditions(conditions, news);
      UniqueConditions(r) && forall i :: 0 <= i < |r| ==> r[i].zone == z
    decreases |news|
  {
    if news != [] {
      var next := MergeCondition(conditions, news[0]);
      if HasCondition(conditions, news[0].ctype, news[0].zone) {
        assert forall i :: 0 <= i < |next| ==> KeyOf(next[i]) == KeyOf(conditions[i]);
        forall i, j | 0 <= i < j < |next| ensures KeyOf(next[i]) != KeyOf(next[j]) {
          assert KeyOf(conditions[i]) != KeyOf(conditions[j]);
        }
      } else {
        InsertRefines(conditions, news[0]);
      }
      MergeConditionsWellFormed(next, news[1..], z);
    }
  }

  lemma MergeWellFormed(c: Status, n: Status, z: ZoneId)
    requires WellFormedStatus(c) && WellFormedStatus(n)
    ensures WellFormedStatus(MergeStatus(c, n, z))
  {
    var s := c.(ownership := MergeOwnership(c.ownership, n.ownership));
    if HasZone(n, z) {
      OwnWellFormed(c, z);
      OwnWellFormed(n, z);
      MergeConditionsWellFormed(Own(s, z).conditions, Own(n, z).conditions, z);
      PutRefines(s, z, Own(s, z).(chartVersion := Own(n, z).chartVersion,
                                  conditions := MergeConditions(Own(s, z).conditions, Own(n, z).conditions)));
    } else {
      RemoveZoneRefines(s, z);
    }
  }
}
