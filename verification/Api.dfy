// The status of an AnyApplication: ownership plus one entry per zone, each a list of conditions.
// The lists are searched by first match; `Put`, `Insert`, `Upsert` and `Drop` are the list operations the
// controller performs, and the lemmas say which map operations they refine.
module Api {
  import opened Wrappers
  import opened Versions

  type ZoneId = string

  datatype ConditionType =
    | LocalCondition | PlacementCondition | OwnershipTransferCondition | DeploymentCondition | UndeploymentCondition

  // The status texts the controller writes or tests; any other text is `Other`.
  datatype Code =
    | Pull | Undeploy | InProgress | Done | Failure
    | Healthy | Suspended | Progressing | Missing | Degraded | Unknown
    | Other(text: string)

  datatype Condition = Condition(ctype: ConditionType, zone: ZoneId, code: Code, time: int,
                                 reason: string, msg: string, retryAttempt: int)

  // `chartVersion` is what the stored text parses to; None stands for an empty or unreadable text.
  datatype ZoneStatus = ZoneStatus(zoneId: ZoneId, zoneVersion: int, chartVersion: Option<Version>,
                                   conditions: seq<Condition>)

  datatype GlobalState =
    | NoState | UnknownState | New | Placing | Operational | Relocation | Failed | OwnershipTransfer

  datatype Placement = Placement(zone: ZoneId, nodeAffinity: seq<string>)

  // `placements` is None for a nil list.
  datatype Ownership = Ownership(epoch: int, state: GlobalState, owner: ZoneId, placements: Option<seq<Placement>>)

  datatype Status = Status(ownership: Ownership, zones: seq<ZoneStatus>)

  const EMPTY_STATUS := Status(Ownership(0, NoState, "", None), [])

  // ---- zones as a list ----

  // Position of the first entry of the zone; the length of the list when there is none.
  function ZoneIndex(zones: seq<ZoneStatus>, z: ZoneId): (i: nat)
    ensures i <= |zones|
    ensures i < |zones| ==> zones[i].zoneId == z
    ensures forall j :: 0 <= j < i ==> zones[j].zoneId != z
  {
    if zones == [] || zones[0].zoneId == z then 0 else 1 + ZoneIndex(zones[1..], z)
  }

  predicate HasZone(s: Status, z: ZoneId) { ZoneIndex(s.zones, z) < |s.zones| }

  // The zone's entry, or the fresh entry that GetOrCreateStatusFor would append.
  function Own(s: Status, z: ZoneId): (own: ZoneStatus)
    ensures own.zoneId == z
  {
    var i := ZoneIndex(s.zones, z);
    if i < |s.zones| then s.zones[i] else ZoneStatus(z, 0, None, [])
  }

  function Put(s: Status, z: ZoneId, own: ZoneStatus): Status
    requires own.zoneId == z
  {
    var i := ZoneIndex(s.zones, z);
    s.(zones := if i < |s.zones| then s.zones[i := own] else s.zones + [own])
  }

  // Every entry but the zone's own, in order: also what RemoveZone leaves.
  function Others(zones: seq<ZoneStatus>, z: ZoneId): seq<ZoneStatus> {
    if zones == [] then []
    else (if zones[0].zoneId == z then [] else [zones[0]]) + Others(zones[1..], z)
  }

  function RemoveZone(s: Status, z: ZoneId): Status { s.(zones := Others(s.zones, z)) }

  lemma ZoneIndexIs(zones: seq<ZoneStatus>, z: ZoneId, i: nat)
    requires i <= |zones| && (i < |zones| ==> zones[i].zoneId == z)
    requires forall j :: 0 <= j < i ==> zones[j].zoneId != z
    ensures ZoneIndex(zones, z) == i
  {}

  lemma PutOwn(s: Status, z: ZoneId, own: ZoneStatus)
    requires own.zoneId == z
    ensures HasZone(Put(s, z, own), z) && Own(Put(s, z, own), z) == own
    ensures Put(s, z, own).ownership == s.ownership
    ensures forall own': ZoneStatus :: own'.zoneId == z ==> Put(Put(s, z, own), z, own') == Put(s, z, own')
    ensures HasZone(s, z) ==> Put(s, z, Own(s, z)) == s
  {
    ZoneIndexIs(Put(s, z, own).zones, z, ZoneIndex(s.zones, z));
  }

  lemma {:induction false} OthersPut(zones: seq<ZoneStatus>, z: ZoneId, own: ZoneStatus)
    requires own.zoneId == z
    ensures Others(zones + [own], z) == Others(zones, z)
    ensures var i := ZoneIndex(zones, z); i < |zones| ==> Others(zones[i := own], z) == Others(zones, z)
  {
    if zones != [] {
      assert (zones + [own])[1..] == zones[1..] + [own];
      var i := ZoneIndex(zones, z);
      if 0 < i < |zones| {
        assert zones[i := own][1..] == zones[1..][i - 1 := own];
      }
      OthersPut(zones[1..], z, own);
    }
  }

  lemma {:induction false} OthersLacksZone(zones: seq<ZoneStatus>, z: ZoneId)
    ensures ZoneIndex(Others(zones, z), z) == |Others(zones, z)|
    ensures Others(Others(zones, z), z) == Others(zones, z)
    ensures ZoneIndex(zones, z) == |zones| ==> Others(zones, z) == zones
  {
    if zones != [] {
      OthersLacksZone(zones[1..], z);
      var rest := Others(zones[1..], z);
      if zones[0].zoneId != z {
        assert ([zones[0]] + rest)[1..] == rest;
        assert Others([zones[0]] + rest, z) == [zones[0]] + rest;
      } else {
        assert Others(zones, z) == rest;
      }
    }
  }

  lemma {:induction false} OthersKeepEntry(zones: seq<ZoneStatus>, z: ZoneId, y: ZoneId)
    requires y != z
    ensures var rest := Others(zones, z);
      var i, k := ZoneIndex(zones, y), ZoneIndex(rest, y);
      (i < |zones| <==> k < |rest|) && (i < |zones| ==> zones[i] == rest[k])
  {
    if zones != [] {
      var rest, tail := Others(zones, z), Others(zones[1..], z);
      OthersKeepEntry(zones[1..], z, y);
      if zones[0].zoneId == z {
        assert rest == tail;
      } else {
        assert rest[0] == zones[0] && rest[1..] == tail;
      }
    }
  }

  // Two statuses that differ at most in the entry of zone `z`.
  ghost predicate SameOthers(s: Status, s': Status, z: ZoneId) {
    Others(s.zones, z) == Others(s'.zones, z)
  }

  lemma PutSameOthers(s: Status, z: ZoneId, own: ZoneStatus)
    requires own.zoneId == z
    ensures SameOthers(s, Put(s, z, own), z)
  {
    OthersPut(s.zones, z, own);
  }

  // A change that keeps the other entries keeps what is found for every other zone.
  lemma SameOthersOwn(s: Status, s': Status, z: ZoneId, y: ZoneId)
    requires SameOthers(s, s', z) && y != z
    ensures HasZone(s, y) == HasZone(s', y) && Own(s, y) == Own(s', y)
  {
    OthersKeepEntry(s.zones, z, y);
    OthersKeepEntry(s'.zones, z, y);
  }

  // ---- conditions as a list ----

  function ConditionIndex(conditions: seq<Condition>, ctype: ConditionType, z: ZoneId): (i: nat)
    ensures i <= |conditions|
    ensures i < |conditions| ==> conditions[i].ctype == ctype && conditions[i].zone == z
    ensures forall j :: 0 <= j < i ==> !(conditions[j].ctype == ctype && conditions[j].zone == z)
  {
    if conditions == [] || (conditions[0].ctype == ctype && conditions[0].zone == z) then 0
    else 1 + ConditionIndex(conditions[1..], ctype, z)
  }

  predicate HasCondition(conditions: seq<Condition>, ctype: ConditionType, z: ZoneId) {
    ConditionIndex(conditions, ctype, z) < |conditions|
  }

  // The state machines' addOrUpdateCondition and updateLocalCondition: insert if absent, never update,
  // because the update is written into a copy of the entry.
  function Insert(conditions: seq<Condition>, c: Condition): seq<Condition> {
    if HasCondition(conditions, c.ctype, c.zone) then conditions else conditions + [c]
  }

  predicate SameReport(c: Condition, d: Condition) { c.code == d.code && c.reason == d.reason && c.msg == d.msg }

  // AnyApplicationStatus.AddOrUpdate: replaced only when status, reason or message differ.
  function Upsert(conditions: seq<Condition>, c: Condition): seq<Condition> {
    var i := ConditionIndex(conditions, c.ctype, c.zone);
    if i == |conditions| then conditions + [c]
    else if SameReport(conditions[i], c) then conditions
    else conditions[i := c]
  }

  function Drop(conditions: seq<Condition>, ctype: ConditionType, z: ZoneId): seq<Condition> {
    if conditions == [] then []
    else (if conditions[0].ctype == ctype && conditions[0].zone == z then [] else [conditions[0]])
         + Drop(conditions[1..], ctype, z)
  }

  // Position of the first condition of a type, whatever its zone.
  function TypeIndex(conditions: seq<Condition>, ctype: ConditionType): (i: nat)
    ensures i <= |conditions|
    ensures i < |conditions| ==> conditions[i].ctype == ctype
    ensures forall j :: 0 <= j < i ==> conditions[j].ctype != ctype
  {
    if conditions == [] || conditions[0].ctype == ctype then 0 else 1 + TypeIndex(conditions[1..], ctype)
  }

  lemma NoElements(conditions: seq<Condition>)
    ensures conditions == [] || exists c :: c in conditions
  {
    if conditions != [] { assert conditions[0] in conditions; }
  }

  lemma Member(conditions: seq<Condition>, c: Condition)
    requires c in conditions
    ensures HasCondition(conditions, c.ctype, c.zone)
  {
    var j :| 0 <= j < |conditions| && conditions[j] == c;
  }

  lemma Present(conditions: seq<Condition>, ctype: ConditionType, z: ZoneId)
    ensures HasCondition(conditions, ctype, z) <==> exists d :: d in conditions && KeyOf(d) == (ctype, z)
  {
    if HasCondition(conditions, ctype, z) {
      var k := ConditionIndex(conditions, ctype, z);
      assert conditions[k] in conditions && KeyOf(conditions[k]) == (ctype, z);
    }
    if d :| d in conditions && KeyOf(d) == (ctype, z) { Member(conditions, d); }
  }

  // ---- the maps the lists stand for ----

  ghost predicate UniqueZones(zones: seq<ZoneStatus>) {
    forall i, j :: 0 <= i < j < |zones| ==> zones[i].zoneId != zones[j].zoneId
  }

  ghost predicate UniqueConditions(conditions: seq<Condition>) {
    forall i, j :: 0 <= i < j < |conditions| ==>
      !(conditions[i].ctype == conditions[j].ctype && conditions[i].zone == conditions[j].zone)
  }

  ghost predicate WellFormedZone(zs: ZoneStatus) {
    && UniqueConditions(zs.conditions)
    && forall i :: 0 <= i < |zs.conditions| ==> zs.conditions[i].zone == zs.zoneId
  }

  ghost predicate WellFormedStatus(s: Status) {
    && UniqueZones(s.zones)
    && forall i :: 0 <= i < |s.zones| ==> WellFormedZone(s.zones[i])
  }

  type Key = (ConditionType, ZoneId)

  function KeyOf(c: Condition): Key { (c.ctype, c.zone) }

  ghost function ConditionMap(conditions: seq<Condition>): map<Key, Condition> {
    if conditions == [] then map[]
    else ConditionMap(conditions[1..])[KeyOf(conditions[0]) := conditions[0]]
  }

  ghost function ZoneMap(zones: seq<ZoneStatus>): map<ZoneId, ZoneStatus> {
    if zones == [] then map[] else ZoneMap(zones[1..])[zones[0].zoneId := zones[0]]
  }

  // `m` sends the key of every element to that element and has no other key.
  ghost predicate Represents(conditions: seq<Condition>, m: map<Key, Condition>) {
    && (forall c :: c in conditions ==> KeyOf(c) in m && m[KeyOf(c)] == c)
    && (forall k :: k in m ==> m[k] in conditions && KeyOf(m[k]) == k)
  }

  ghost predicate RepresentsZones(zones: seq<ZoneStatus>, m: map<ZoneId, ZoneStatus>) {
    && (forall e :: e in zones ==> e.zoneId in m && m[e.zoneId] == e)
    && (forall z :: z in m ==> m[z] in zones && m[z].zoneId == z)
  }

  lemma {:induction false} MapRepresents(conditions: seq<Condition>)
    requires UniqueConditions(conditions)
    ensures Represents(conditions, ConditionMap(conditions))
  {
    if conditions != [] {
      MapRepresents(conditions[1..]);
      assert forall c :: c in conditions ==> c == conditions[0] || c in conditions[1..];
    }
  }

  lemma MapIs(conditions: seq<Condition>, m: map<Key, Condition>)
    requires UniqueConditions(conditions) && Represents(conditions, m)
    ensures ConditionMap(conditions) == m
  {
    MapRepresents(conditions);
  }

  lemma {:induction false} ZoneMapRepresents(zones: seq<ZoneStatus>)
    requires UniqueZones(zones)
    ensures RepresentsZones(zones, ZoneMap(zones))
  {
    if zones != [] {
      ZoneMapRepresents(zones[1..]);
      assert forall e :: e in zones ==> e == zones[0] || e in zones[1..];
    }
  }

  lemma ZoneMapIs(zones: seq<ZoneStatus>, m: map<ZoneId, ZoneStatus>)
    requires UniqueZones(zones) && RepresentsZones(zones, m)
    ensures ZoneMap(zones) == m
  {
    ZoneMapRepresents(zones);
  }

  // First match in a duplicate-free list is lookup in the map.
  lemma LookupIsMap(conditions: seq<Condition>, ctype: ConditionType, z: ZoneId)
    requires UniqueConditions(conditions)
    ensures var i, m := ConditionIndex(conditions, ctype, z), ConditionMap(conditions);
      (i < |conditions| <==> (ctype, z) in m) && (i < |conditions| ==> m[(ctype, z)] == conditions[i])
  {
    MapRepresents(conditions);
    var i := ConditionIndex(conditions, ctype, z);
    if i < |conditions| { assert conditions[i] in conditions; }
  }

  lemma InsertRefines(conditions: seq<Condition>, c: Condition)
    requires UniqueConditions(conditions)
    ensures UniqueConditions(Insert(conditions, c))
    ensures ConditionMap(Insert(conditions, c)) ==
      var m := ConditionMap(conditions); if KeyOf(c) in m then m else m[KeyOf(c) := c]
  {
    MapRepresents(conditions);
    LookupIsMap(conditions, c.ctype, c.zone);
    if !HasCondition(conditions, c.ctype, c.zone) {
      MapIs(conditions + [c], ConditionMap(conditions)[KeyOf(c) := c]);
    }
  }

  lemma UpsertRefines(conditions: seq<Condition>, c: Condition)
    requires UniqueConditions(conditions)
    ensures UniqueConditions(Upsert(conditions, c))
    ensures ConditionMap(Upsert(conditions, c)) ==
      var m := ConditionMap(conditions);
      if KeyOf(c) in m && SameReport(m[KeyOf(c)], c) then m else m[KeyOf(c) := c]
  {
    MapRepresents(conditions);
    LookupIsMap(conditions, c.ctype, c.zone);
    var i := ConditionIndex(conditions, c.ctype, c.zone);
    if i == |conditions| {
      InsertRefines(conditions, c);
    } else if !SameReport(conditions[i], c) {
      var r := conditions[i := c];
      assert r[i] in r;
      forall d | d in conditions && KeyOf(d) != KeyOf(c) ensures d in r {
        var j :| 0 <= j < |conditions| && conditions[j] == d;
        assert r[j] == d;
      }
      MapIs(r, ConditionMap(conditions)[KeyOf(c) := c]);
    }
  }

  lemma {:induction false} DropElements(conditions: seq<Condition>, ctype: ConditionType, z: ZoneId)
    ensures forall c :: c in Drop(conditions, ctype, z) <==> c in conditions && KeyOf(c) != (ctype, z)
    ensures UniqueConditions(conditions) ==> UniqueConditions(Drop(conditions, ctype, z))
  {
    if conditions != [] {
      DropElements(conditions[1..], ctype, z);
      assert forall c :: c in conditions <==> c == conditions[0] || c in conditions[1..];
      if UniqueConditions(conditions) {
        var rest := Drop(conditions[1..], ctype, z);
        forall j | 0 <= j < |rest| ensures KeyOf(rest[j]) != KeyOf(conditions[0]) {
          assert rest[j] in conditions[1..];
        }
      }
    }
  }

  lemma {:induction false} DropNothing(conditions: seq<Condition>, ctype: ConditionType, z: ZoneId)
    requires !HasCondition(conditions, ctype, z)
    ensures Drop(conditions, ctype, z) == conditions
  {
    if conditions != [] { DropNothing(conditions[1..], ctype, z); }
  }

  // After AddOrUpdate the condition of this type and zone says what was reported; the others stay.
  lemma UpsertElements(conditions: seq<Condition>, c: Condition)
    ensures var r := Upsert(conditions, c);
      && (exists d :: d in r && KeyOf(d) == KeyOf(c) && SameReport(d, c))
      && (forall d :: KeyOf(d) != KeyOf(c) ==> (d in r <==> d in conditions))
  {
    var r, i := Upsert(conditions, c), ConditionIndex(conditions, c.ctype, c.zone);
    assert r[i] in r && KeyOf(r[i]) == KeyOf(c) && SameReport(r[i], c);
    forall d | KeyOf(d) != KeyOf(c) ensures d in r <==> d in conditions {
      if j :| 0 <= j < |conditions| && conditions[j] == d { assert r[j] == d; }
      if j :| 0 <= j < |r| && r[j] == d { assert j < |conditions| && conditions[j] == d; }
    }
  }

  lemma DropRefines(conditions: seq<Condition>, ctype: ConditionType, z: ZoneId)
    requires UniqueConditions(conditions)
    ensures UniqueConditions(Drop(conditions, ctype, z))
    ensures ConditionMap(Drop(conditions, ctype, z)) == ConditionMap(conditions) - {(ctype, z)}
  {
    DropElements(conditions, ctype, z);
    MapRepresents(conditions);
    MapIs(Drop(conditions, ctype, z), ConditionMap(conditions) - {(ctype, z)});
  }

  // In a well-formed entry the search by type alone finds what the search by type and zone finds.
  lemma FindConditionAgrees(zs: ZoneStatus, ctype: ConditionType)
    requires WellFormedZone(zs)
    ensures TypeIndex(zs.conditions, ctype) == ConditionIndex(zs.conditions, ctype, zs.zoneId)
  {
    var i, j := TypeIndex(zs.conditions, ctype), ConditionIndex(zs.conditions, ctype, zs.zoneId);
    if i < |zs.conditions| { assert zs.conditions[i].zone == zs.zoneId; }
  }

  lemma PutRefines(s: Status, z: ZoneId, own: ZoneStatus)
    requires WellFormedStatus(s) && own.zoneId == z && WellFormedZone(own)
    ensures WellFormedStatus(Put(s, z, own))
    ensures ZoneMap(Put(s, z, own).zones) == ZoneMap(s.zones)[z := own]
  {
    var r := Put(s, z, own);
    var i := ZoneIndex(s.zones, z);
    ZoneMapRepresents(s.zones);
    assert r.zones[i] == own;
    assert forall j :: 0 <= j < |r.zones| && j != i ==> r.zones[j] == s.zones[j];
    forall e | e in s.zones && e.zoneId != z ensures e in r.zones {
      var j :| 0 <= j < |s.zones| && s.zones[j] == e;
      assert r.zones[j] == e;
    }
    ZoneMapIs(r.zones, ZoneMap(s.zones)[z := own]);
  }

  lemma {:induction false} OthersElements(zones: seq<ZoneStatus>, z: ZoneId)
    ensures forall e :: e in Others(zones, z) <==> e in zones && e.zoneId != z
    ensures UniqueZones(zones) ==> UniqueZones(Others(zones, z))
  {
    if zones != [] {
      OthersElements(zones[1..], z);
      assert forall e :: e in zones <==> e == zones[0] || e in zones[1..];
      if UniqueZones(zones) {
        var rest := Others(zones[1..], z);
        forall j | 0 <= j < |rest| ensures rest[j].zoneId != zones[0].zoneId {
          assert rest[j] in zones[1..];
        }
      }
    }
  }

  lemma RemoveZoneRefines(s: Status, z: ZoneId)
    requires WellFormedStatus(s)
    ensures WellFormedStatus(RemoveZone(s, z))
    ensures ZoneMap(RemoveZone(s, z).zones) == ZoneMap(s.zones) - {z}
  {
    var r := Others(s.zones, z);
    OthersElements(s.zones, z);
    ZoneMapRepresents(s.zones);
    forall i | 0 <= i < |r| ensures WellFormedZone(r[i]) {
      assert r[i] in s.zones;
    }
    ZoneMapIs(r, ZoneMap(s.zones) - {z});
  }

  // ---- own-zone updates, as functions on the status ----

  function WithCondition(s: Status, z: ZoneId, c: Condition): Status {
    Put(s, z, Own(s, z).(conditions := Insert(Own(s, z).conditions, c)))
  }

  function WithoutCondition(s: Status, z: ZoneId, ctype: ConditionType, czone: ZoneId): Status {
    if HasZone(s, z) then Put(s, z, Own(s, z).(conditions := Drop(Own(s, z).conditions, ctype, czone))) else s
  }

  function AddOrUpdate(s: Status, z: ZoneId, c: Condition): Status {
    Put(s, z, Own(s, z).(conditions := Upsert(Own(s, z).conditions, c)))
  }

  // IncrementZoneVersion: above both the entry's last version and the object's resource version.
  function BumpZone(s: Status, z: ZoneId, resourceVersion: int): Status {
    if HasZone(s, z) then
      var own := Own(s, z);
      Put(s, z, own.(zoneVersion := if own.zoneVersion >= resourceVersion + 1 then own.zoneVersion + 1
                                    else resourceVersion + 1))
    else s
  }
}
