// AnyApplicationStatus as the mutable object the controller works on in place. A reference to a list element is a
// position here. Each method is tied to the list operation of `Api` it performs.
module StatusObject {
  import opened Wrappers
  import opened Versions
  import opened Api

  class AnyApplicationStatus {
    var ownership: Ownership
    var zones: seq<ZoneStatus>

    function Value(): Status
      reads this
    {
      Status(ownership, zones)
    }

    constructor (s: Status)
      ensures Value() == s
    {
      ownership, zones := s.ownership, s.zones;
    }

    method GetStatusFor(zone: ZoneId) returns (i: nat, found: bool)
      ensures i == ZoneIndex(zones, zone) && found == HasZone(Value(), zone)
    {
      i := 0;
      while i < |zones|
        invariant i <= |zones| && forall j :: 0 <= j < i ==> zones[j].zoneId != zone
      {
        if zones[i].zoneId == zone {
          ZoneIndexIs(zones, zone, i);
          return i, true;
        }
        i := i + 1;
      }
      ZoneIndexIs(zones, zone, i);
      found := false;
    }

    method GetOrCreateStatusFor(zone: ZoneId) returns (i: nat)
      modifies this`zones
      ensures Value() == Put(old(Value()), zone, Own(old(Value()), zone))
      ensures i == ZoneIndex(zones, zone) < |zones| && zones[i] == Own(old(Value()), zone)
    {
      var found;
      i, found := GetStatusFor(zone);
      PutOwn(Value(), zone, Own(Value(), zone));
      if !found {
        zones := zones + [ZoneStatus(zone, 0, None, [])];
      }
    }

    method RemoveZone(zone: ZoneId)
      modifies this`zones
      ensures Value() == Api.RemoveZone(old(Value()), zone)
    {
      zones := Others(zones, zone);
    }

    method FindCondition(i: nat, ctype: ConditionType) returns (k: nat)
      requires i < |zones|
      ensures k == TypeIndex(zones[i].conditions, ctype)
    {
      var conditions := zones[i].conditions;
      k := 0;
      while k < |conditions| && conditions[k].ctype != ctype
        invariant k <= |conditions| && forall j :: 0 <= j < k ==> conditions[j].ctype != ctype
      {
        k := k + 1;
      }
    }

    method AddOrUpdate(c: Condition, zone: ZoneId) returns (updated: bool)
      modifies this`zones
      ensures Value() == Api.AddOrUpdate(old(Value()), zone, c)
      ensures updated <==> Own(Value(), zone).conditions != Own(old(Value()), zone).conditions
    {
      PutOwn(Value(), zone, Own(Value(), zone));
      var i := GetOrCreateStatusFor(zone);
      var conditions := zones[i].conditions;
      updated := false;
      var found := false;
      var k := 0;
      while k < |conditions| && !found
        invariant k <= |conditions|
        invariant !found ==> forall j :: 0 <= j < k ==> KeyOf(conditions[j]) != KeyOf(c)
        invariant found ==> k < |conditions| && k == ConditionIndex(conditions, c.ctype, c.zone)
        invariant updated <==> found && !SameReport(conditions[k], c)
        invariant Value() == Put(old(Value()), zone, Own(old(Value()), zone).(conditions :=
                               if updated then conditions[k := c] else conditions))
        invariant i == ZoneIndex(zones, zone) < |zones|
        decreases |conditions| - k, !found
      {
        if conditions[k].ctype == c.ctype && conditions[k].zone == c.zone {
          found := true;
          if conditions[k].code != c.code || conditions[k].reason != c.reason || conditions[k].msg != c.msg {
            zones := zones[i := zones[i].(conditions := conditions[k := c])];
            updated := true;
            ZoneIndexIs(zones, zone, i);
          }
        } else {
          k := k + 1;
        }
      }
      if !found {
        zones := zones[i := zones[i].(conditions := conditions + [c])];
        updated := true;
      }
      PutOwn(old(Value()), zone, Own(old(Value()), zone).(conditions := Upsert(conditions, c)));
    }

    method Remove(ctype: ConditionType, zone: ZoneId) returns (removed: bool)
      modifies this`zones
      ensures Value() == WithoutCondition(old(Value()), zone, ctype, zone)
      ensures removed <==> HasCondition(Own(old(Value()), zone).conditions, ctype, zone)
    {
      var i, found := GetStatusFor(zone);
      if !found {
        return false;
      }
      var conditions := zones[i].conditions;
      zones := zones[i := zones[i].(conditions := Drop(conditions, ctype, zone))];
      removed := |Drop(conditions, ctype, zone)| != |conditions|;
      DropLength(conditions, ctype, zone);
    }

    method IncrementZoneVersion(zone: ZoneId, resourceVersion: int)
      modifies this`zones
      ensures Value() == BumpZone(old(Value()), zone, resourceVersion)
    {
      var i, found := GetStatusFor(zone);
      if !found {
        return;
      }
      var latestVersion := resourceVersion + 1;
      if zones[i].zoneVersion >= latestVersion {
        latestVersion := zones[i].zoneVersion + 1;
      }
      zones := zones[i := zones[i].(zoneVersion := latestVersion)];
    }

    // The state machines' addOrUpdateCondition and updateLocalCondition.
    method InsertCondition(c: Condition, zone: ZoneId)
      modifies this`zones
      ensures Value() == WithCondition(old(Value()), zone, c)
    {
      PutOwn(Value(), zone, Own(Value(), zone));
      var i := GetOrCreateStatusFor(zone);
      if !HasCondition(zones[i].conditions, c.ctype, c.zone) {
        zones := zones[i := zones[i].(conditions := zones[i].conditions + [c])];
      }
    }

    method RemoveCondition(c: Condition, zone: ZoneId)
      modifies this`zones
      ensures Value() == WithoutCondition(old(Value()), zone, c.ctype, c.zone)
    {
      var i, found := GetStatusFor(zone);
      if found {
        zones := zones[i := zones[i].(conditions := Drop(zones[i].conditions, c.ctype, c.zone))];
      }
    }

    method SetNewVersion(version: Version, zone: ZoneId)
      modifies this`zones
      ensures Value() == Put(old(Value()), zone, Own(old(Value()), zone).(chartVersion := Some(version)))
    {
      PutOwn(Value(), zone, Own(Value(), zone));
      var i := GetOrCreateStatusFor(zone);
      zones := zones[i := zones[i].(chartVersion := Some(version))];
    }
  }

  lemma {:induction false} DropLength(conditions: seq<Condition>, ctype: ConditionType, z: ZoneId)
    ensures |Drop(conditions, ctype, z)| <= |conditions|
    ensures |Drop(conditions, ctype, z)| != |conditions| <==> HasCondition(conditions, ctype, z)
  {
    if conditions != [] { DropLength(conditions[1..], ctype, z); }
  }
}
