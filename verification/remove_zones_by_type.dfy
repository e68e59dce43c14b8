/** The clean-up script (remove_zones_by_type.py): list every zone, select the ones of
    one type and delete them one by one through delete_zone_by_id, counting the
    deletions that succeed. */
module RemoveZonesByType {
  import opened Common
  import opened Database

  /** The type the script is run with. */
  const DefaultTarget: string := "firestore_imported"

  predicate HasType(z: Record, target: string) {
    Get(z, "type", Null) == Str(target)
  }

  /** The listed zones of the target type, in listing order. */
  function OfType(zs: seq<Record>, target: string): seq<Record>
    decreases |zs|
  {
    if zs == [] then []
    else
      var n := |zs| - 1;
      OfType(zs[..n], target) + if HasType(zs[n], target) then [zs[n]] else []
  }

  /** The selection keeps exactly the listed zones of the target type. */
  lemma {:induction false} OfTypeMembers(zs: seq<Record>, target: string)
    ensures forall z :: z in OfType(zs, target) <==> z in zs && HasType(z, target)
    decreases |zs|
  {
    if zs != [] {
      var n := |zs| - 1;
      OfTypeMembers(zs[..n], target);
      assert zs == zs[..n] + [zs[n]];
    }
  }

  /** Zones with distinct ids stay distinct once selected. */
  lemma {:induction false} OfTypeDistinct(zs: seq<Record>, target: string)
    requires forall i, j :: 0 <= i < j < |zs| ==> Get(zs[i], "id", Null) != Get(zs[j], "id", Null)
    ensures forall i, j :: 0 <= i < j < |OfType(zs, target)| ==>
              Get(OfType(zs, target)[i], "id", Null) != Get(OfType(zs, target)[j], "id", Null)
    decreases |zs|
  {
    if zs != [] {
      var n := |zs| - 1;
      OfTypeDistinct(zs[..n], target);
      OfTypeMembers(zs[..n], target);
      var front := OfType(zs[..n], target);
      forall z | z in front ensures Get(z, "id", Null) != Get(zs[n], "id", Null) {
        var i :| 0 <= i < n && zs[..n][i] == z;
      }
    }
  }

  /** Zone k of the stored zones is a dict of the target type. */
  predicate IsTarget(zones: map<string, Value>, k: string, target: string) {
    k in zones && zones[k].Obj? && HasType(zones[k].fields, target)
  }

  /** The zones a run removes: the ones of the target type whose deletion does not
      fail. */
  function Removed(zones: map<string, Value>, target: string, deleteFails: string -> bool): set<string> {
    set k | k in zones && IsTarget(zones, k, target) && !deleteFails(k)
  }

  /** The selection from a listing names every zone of the target type exactly once. */
  lemma SelectionNamesTargets(all: seq<Record>, zones: map<string, Value>, target: string)
    requires IsListing(all, zones)
    ensures var sel: seq<Record> := OfType(all, target);
            (forall j :: 0 <= j < |sel| ==> "id" in sel[j] && sel[j]["id"].Str? && IsTarget(zones, sel[j]["id"].s, target))
            && (forall j, j' :: 0 <= j < j' < |sel| ==> sel[j]["id"] != sel[j']["id"])
            && (forall k :: IsTarget(zones, k, target) ==> exists j :: 0 <= j < |sel| && sel[j] == Stamped(zones, k))
  {
    var sel: seq<Record> := OfType(all, target);
    OfTypeMembers(all, target);
    assert forall i :: 0 <= i < |all| ==> Get(all[i], "id", Null) == all[i]["id"];
    OfTypeDistinct(all, target);
    forall j: int | 0 <= j < |sel| ensures "id" in sel[j] && sel[j]["id"].Str? && IsTarget(zones, sel[j]["id"].s, target) {
      assert sel[j] in all;
      var k := sel[j]["id"].s;
      assert Get(sel[j], "type", Null) == Get(zones[k].fields, "type", Null);
    }
    forall k | IsTarget(zones, k, target) ensures exists j :: 0 <= j < |sel| && sel[j] == Stamped(zones, k) {
      assert HasType(Stamped(zones, k), target);
      assert Stamped(zones, k) in sel;
    }
  }

  /** The selection loop: the listed zones whose "type" is the target, in listing
      order. */
  method SelectOfType(all: seq<Record>, target: string) returns (selected: seq<Record>)
    ensures selected == OfType(all, target)
  {
    selected := [];
    for i := 0 to |all|
      invariant selected == OfType(all[..i], target)
    {
      if Get(all[i], "type", Null) == Str(target) {
        selected := selected + [all[i]];
      }
      assert all[..i + 1][..i] == all[..i];
    }
    assert all[..|all|] == all;
  }

  /** main: deletes every zone of the target type except those whose deletion fails
      (`deleteFails`: the request raises), and reports how many it deleted. Zones of
      other types, and every other node, are untouched. */
  method RemoveZones(store: Store, target: string, deleteFails: string -> bool) returns (deleted: nat)
    requires store.Valid()
    modifies store
    ensures store.Valid()
    ensures deleted == |Removed(old(store.zones), target, deleteFails)|
    ensures store.zones == old(store.zones) - Removed(old(store.zones), target, deleteFails)
    ensures store.admins == old(store.admins) && store.alerts == old(store.alerts)
            && store.touristPaths == old(store.touristPaths) && store.policeLocations == old(store.policeLocations)
  {
    deleted := 0;
    var all := store.GetAllZones();
    ghost var zones0 := store.zones;
    SelectionNamesTargets(all, zones0, target);
    if all == [] {
      assert Removed(zones0, target, deleteFails) == {};
      assert store.zones == zones0 - {};
      return;
    }
    var selected: seq<Record> := SelectOfType(all, target);
    if selected == [] {
      assert Removed(zones0, target, deleteFails) == {};
      assert store.zones == zones0 - {};
      return;
    }
    ghost var removed: set<string>;
    deleted, removed := DeleteEach(store, selected, deleteFails);
    assert removed == Removed(zones0, target, deleteFails) by {
      forall k | k in Removed(zones0, target, deleteFails) ensures k in removed {
        var j :| 0 <= j < |selected| && selected[j] == Stamped(zones0, k);
      }
    }
  }

  /** The deletion loop: one delete_zone_by_id per selected zone, counting the
      deletions that succeed. */
  method DeleteEach(store: Store, selected: seq<Record>, deleteFails: string -> bool)
    returns (deleted: nat, ghost removed: set<string>)
    requires store.Valid()
    requires forall j :: 0 <= j < |selected| ==> "id" in selected[j] && selected[j]["id"].Str? && PlainKey(selected[j]["id"].s)
    requires forall j, j' :: 0 <= j < j' < |selected| ==> selected[j]["id"] != selected[j']["id"]
    modifies store
    ensures store.Valid()
    ensures forall k :: k in removed <==> !deleteFails(k) && exists j :: 0 <= j < |selected| && selected[j]["id"] == Str(k)
    ensures deleted == |removed|
    ensures store.zones == old(store.zones) - removed
    ensures store.admins == old(store.admins) && store.alerts == old(store.alerts)
            && store.touristPaths == old(store.touristPaths) && store.policeLocations == old(store.policeLocations)
  {
    deleted, removed := 0, {};
    for i := 0 to |selected|
      invariant deleted == |removed|
      invariant forall k :: k in removed <==> !deleteFails(k) && exists j :: 0 <= j < i && selected[j]["id"] == Str(k)
      invariant store.zones == old(store.zones) - removed
      invariant store.Valid()
      invariant store.admins == old(store.admins) && store.alerts == old(store.alerts)
                && store.touristPaths == old(store.touristPaths) && store.policeLocations == old(store.policeLocations)
    {
      var zone: Record := selected[i];
      var id := zone["id"].s;
      assert !HasForbiddenChar(id);
      DeletePlainKey(store.zones, id);
      var ok := store.DeleteZoneById(id, deleteFails(id));
      if ok {
        MinusStep(old(store.zones), removed, id);
        removed := removed + {id};
        deleted := deleted + 1;
      }
    }
  }

  lemma MinusStep(m: map<string, Value>, r: set<string>, k: string)
    ensures (m - r) - {k} == m - (r + {k})
  {
  }

  /** A run with no failing deletion leaves no zone of the target type and keeps every
      other zone as it was. */
  lemma NoTargetLeft(zones: map<string, Value>, target: string, deleteFails: string -> bool)
    requires forall k :: !deleteFails(k)
    ensures var after := zones - Removed(zones, target, deleteFails);
            (forall k :: k in after ==> !IsTarget(after, k, target))
            && forall k :: k in zones && !IsTarget(zones, k, target) ==> k in after && after[k] == zones[k]
  {
  }
}
