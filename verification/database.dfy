/** The Firebase Realtime Database helpers (database.py) over an explicit store: the
    "zones" node as a map from push keys to zone records, the admins and anomaly alerts
    in push order, and the planned paths by user. */
module Database {
  import opened Common

  /** Characters the Firebase SDK refuses in a reference path (ValueError). */
  predicate IsForbiddenPathChar(c: char) {
    c in "[].?#$"
  }

  predicate IsSlash(c: char) {
    c == '/'
  }

  /** A key that names exactly one child: non-empty, no '/', no forbidden character. */
  predicate PlainKey(k: string) {
    k != [] && forall i :: 0 <= i < |k| ==> !IsSlash(k[i]) && !IsForbiddenPathChar(k[i])
  }

  /** A zone record as listed by get_all_zones: the stored dict with its key as "id". */
  function Stamped(zones: map<string, Value>, k: string): Record
    requires k in zones && zones[k].Obj?
  {
    zones[k].fields["id" := Str(k)]
  }

  /** The keys of the zones that are dicts. */
  function DictKeys(zones: map<string, Value>): set<string> {
    set k | k in zones && zones[k].Obj?
  }

  // ---------------------------------------------------------------------------
  // Deleting a path under the zones node

  /** The tree `v` with the node at path `segs` removed; an object left empty
      disappears, as it does in the Realtime Database. */
  function RemoveAt(v: Value, segs: seq<string>): Value
    requires segs != []
    decreases segs, 1
  {
    if v.Obj? then
      var m := RemoveIn(v.fields, segs);
      if m == map[] then Null else Obj(m)
    else v
  }

  function RemoveIn(m: map<string, Value>, segs: seq<string>): map<string, Value>
    requires segs != []
    decreases segs, 0
  {
    if segs[0] !in m then m
    else if |segs| == 1 then m - {segs[0]}
    else
      var child := RemoveAt(m[segs[0]], segs[1..]);
      if child == Null then m - {segs[0]} else m[segs[0] := child]
  }

  /** The zones after `db.reference("zones/" + id).delete()`: an id with no path segment
      names the whole node. */
  function DeletedAt(zones: map<string, Value>, id: string): map<string, Value> {
    var segs := Pieces(id, IsSlash);
    if segs == [] then map[] else RemoveIn(zones, segs)
  }

  /** Is some character of `s` refused in a path? */
  predicate HasForbiddenChar(s: string) {
    exists i :: 0 <= i < |s| && IsForbiddenPathChar(s[i])
  }

  /** Deleting a plain key removes that zone and nothing else, whether it existed or not. */
  lemma DeletePlainKey(zones: map<string, Value>, k: string)
    requires PlainKey(k)
    ensures DeletedAt(zones, k) == zones - {k}
  {
    PiecesOfPlain(k, IsSlash);
  }

  /** An empty id deletes every zone. */
  lemma DeleteEmptyId(zones: map<string, Value>)
    ensures DeletedAt(zones, "") == map[]
  {
  }

  // ---------------------------------------------------------------------------
  // Push keys

  /** A fresh push key: longer than every existing key, so different from all of them. */
  method NewPushKey(keys: set<string>) returns (k: string)
    ensures k !in keys && PlainKey(k)
  {
    var longest: nat := 0;
    var rest := keys;
    while rest != {}
      invariant rest <= keys
      invariant forall x :: x in keys && x !in rest ==> |x| <= longest
      decreases |rest|
    {
      var x :| x in rest;
      if |x| > longest {
        longest := |x|;
      }
      rest := rest - {x};
    }
    k := seq(longest + 1, _ => '-');
    assert |k| == longest + 1 && k[0] == '-';
  }

  // ---------------------------------------------------------------------------
  // Admins

  predicate IsAdminNamed(a: Record, username: string) {
    Get(a, "username", Null) == Str(username)
  }

  /** get_admin: the first admin with that username, in push order. */
  function FindAdmin(admins: seq<Record>, username: string): (r: Option<Record>)
    ensures r.None? <==> forall i :: 0 <= i < |admins| ==> !IsAdminNamed(admins[i], username)
    ensures r.Some? ==> exists i :: 0 <= i < |admins| && admins[i] == r.value
                                    && IsAdminNamed(admins[i], username)
                                    && forall j :: 0 <= j < i ==> !IsAdminNamed(admins[j], username)
  {
    if admins == [] then None
    else if IsAdminNamed(admins[0], username) then Some(admins[0])
    else
      var r := FindAdmin(admins[1..], username);
      assert forall i :: 1 <= i < |admins| ==> admins[i] == admins[1..][i - 1];
      r
  }

  function AdminRecord(username: string, passwordHash: string): Record {
    map["username" := Str(username), "password_hash" := Str(passwordHash)]
  }

  /** Once an admin is created under a new name, get_admin finds exactly that record. */
  lemma {:induction false} FindCreatedAdmin(admins: seq<Record>, username: string, passwordHash: string)
    requires FindAdmin(admins, username).None?
    ensures FindAdmin(admins + [AdminRecord(username, passwordHash)], username)
            == Some(AdminRecord(username, passwordHash))
  {
    if admins != [] {
      assert (admins + [AdminRecord(username, passwordHash)])[1..] == admins[1..] + [AdminRecord(username, passwordHash)];
      assert !IsAdminNamed(admins[0], username);
      FindCreatedAdmin(admins[1..], username, passwordHash);
    }
  }

  // ---------------------------------------------------------------------------
  // Latest location per user

  function UserOf(location: Record): Value {
    Get(location, "user_id", Null)
  }

  /** Can the value be a Python dict key (lists and dicts raise TypeError)? */
  predicate Hashable(v: Value) {
    !v.Arr? && !v.Obj?
  }

  /** The dict key a user id stands for. Python's `True == 1 == 1.0` (with equal
      hashes) makes those one key, and `False == 0` another; every other value is its
      own key. */
  function KeyOf(id: Value): (k: Value)
    ensures Truthy(k) <==> Truthy(id)
    ensures Hashable(k) <==> Hashable(id)
    ensures !k.Bool?
  {
    match id
    case Bool(b) => Num(if b then 1.0 else 0.0)
    case _ => id
  }

  /** The dict the loop of get_latest_tourist_locations builds: the keys in order of
      first insertion and, for each, the location that last overwrote it. */
  datatype Latest = Latest(users: seq<Value>, last: map<Value, Record>)

  function Fold(locations: seq<Record>): Latest
    decreases |locations|
  {
    if locations == [] then Latest([], map[])
    else
      var n := |locations| - 1;
      var acc := Fold(locations[..n]);
      var id := UserOf(locations[n]);
      if !Truthy(id) then acc
      else
        var u := KeyOf(id);
        if u in acc.last then Latest(acc.users, acc.last[u := locations[n]])
        else Latest(acc.users + [u], acc.last[u := locations[n]])
  }

  ghost predicate WellFormed(acc: Latest) {
    (forall i :: 0 <= i < |acc.users| ==> acc.users[i] in acc.last)
    && (forall u :: u in acc.last ==> u in acc.users)
    && (forall i, j :: 0 <= i < j < |acc.users| ==> acc.users[i] != acc.users[j])
  }

  /** The dict's values in insertion order: list(latest_locations.values()). */
  function Values(acc: Latest): seq<Record>
    requires forall i :: 0 <= i < |acc.users| ==> acc.users[i] in acc.last
  {
    seq(|acc.users|, i requires 0 <= i < |acc.users| => acc.last[acc.users[i]])
  }

  function LatestLocations(locations: seq<Record>): seq<Record> {
    FoldWellFormed(locations);
    Values(Fold(locations))
  }

  lemma {:induction false} FoldWellFormed(locations: seq<Record>)
    ensures WellFormed(Fold(locations))
    decreases |locations|
  {
    if locations != [] {
      FoldWellFormed(locations[..|locations| - 1]);
    }
  }

  /** The keys kept are exactly the dict keys of the truthy user ids of the locations. */
  lemma {:induction false} FoldUsers(locations: seq<Record>)
    ensures forall u :: u in Fold(locations).last <==>
              exists j :: 0 <= j < |locations| && Truthy(UserOf(locations[j])) && KeyOf(UserOf(locations[j])) == u
    decreases |locations|
  {
    if locations != [] {
      var n := |locations| - 1;
      FoldUsers(locations[..n]);
      forall u ensures u in Fold(locations).last <==>
                       exists j :: 0 <= j < |locations| && Truthy(UserOf(locations[j])) && KeyOf(UserOf(locations[j])) == u
      {
        if exists j :: 0 <= j < |locations| && Truthy(UserOf(locations[j])) && KeyOf(UserOf(locations[j])) == u {
          var j :| 0 <= j < |locations| && Truthy(UserOf(locations[j])) && KeyOf(UserOf(locations[j])) == u;
          if j < n {
            assert UserOf(locations[..n][j]) == UserOf(locations[j]);
          }
        }
        if u in Fold(locations[..n]).last {
          var j :| 0 <= j < n && Truthy(UserOf(locations[..n][j])) && KeyOf(UserOf(locations[..n][j])) == u;
          assert UserOf(locations[j]) == UserOf(locations[..n][j]);
        }
      }
    }
  }

  /** Each key's record is the last location whose user id is that key. */
  lemma {:induction false} FoldKeepsLast(locations: seq<Record>, u: Value)
    requires u in Fold(locations).last
    ensures exists j :: 0 <= j < |locations| && locations[j] == Fold(locations).last[u]
                        && KeyOf(UserOf(locations[j])) == u
                        && forall j' :: j < j' < |locations| ==> KeyOf(UserOf(locations[j'])) != u
    decreases |locations|
  {
    var n := |locations| - 1;
    var acc := Fold(locations[..n]);
    FoldUsers(locations);
    if KeyOf(UserOf(locations[n])) == u {
      assert Truthy(UserOf(locations[n])) by {
        var j :| 0 <= j < |locations| && Truthy(UserOf(locations[j])) && KeyOf(UserOf(locations[j])) == u;
      }
    } else {
      assert u in acc.last;
      FoldKeepsLast(locations[..n], u);
      var j :| 0 <= j < n && locations[..n][j] == acc.last[u] && KeyOf(UserOf(locations[..n][j])) == u
               && forall j' :: j < j' < n ==> KeyOf(UserOf(locations[..n][j'])) != u;
      assert locations[j] == Fold(locations).last[u];
      forall j' | j < j' < |locations| ensures KeyOf(UserOf(locations[j'])) != u {
        if j' < n {
          assert KeyOf(UserOf(locations[..n][j'])) != u;
        }
      }
    }
  }

  /** The children of "tourist_locations" as records (a child that is not a dict
      stands as an empty record; it makes the loop raise first). */
  function ChildRecords(children: seq<Value>): (r: seq<Record>)
    ensures |r| == |children|
    ensures forall i :: 0 <= i < |children| && children[i].Obj? ==> r[i] == children[i].fields
  {
    seq(|children|, i requires 0 <= i < |children| => if children[i].Obj? then children[i].fields else map[])
  }

  /** Does the loop of get_latest_tourist_locations raise? `.get` on a child that is
      not a dict raises AttributeError, and a truthy user id that cannot be a dict key
      raises TypeError. */
  predicate LatestRaises(children: seq<Value>) {
    exists j :: 0 <= j < |children| &&
      (!children[j].Obj? || (Truthy(UserOf(children[j].fields)) && !Hashable(UserOf(children[j].fields))))
  }

  /** get_latest_tourist_locations over the children of "tourist_locations" in
      timestamp order: None when the loop raises. */
  method GetLatestTouristLocations(children: seq<Value>) returns (r: Option<seq<Record>>)
    ensures r.None? <==> LatestRaises(children)
    ensures r.Some? ==> r.value == LatestLocations(ChildRecords(children))
  {
    ghost var records := ChildRecords(children);
    var users: seq<Value> := [];
    var last: map<Value, Record> := map[];
    for i := 0 to |children|
      invariant Latest(users, last) == Fold(records[..i])
      invariant forall j :: 0 <= j < i ==>
                  children[j].Obj? && records[j] == children[j].fields
                  && !(Truthy(UserOf(records[j])) && !Hashable(UserOf(records[j])))
    {
      assert records[..i + 1][..i] == records[..i];
      if !children[i].Obj? {
        return None;
      }
      var id := UserOf(children[i].fields);
      if Truthy(id) {
        if !Hashable(id) {
          return None;
        }
        var u := KeyOf(id);
        if u !in last {
          users := users + [u];
        }
        last := last[u := children[i].fields];
      }
    }
    assert records[..|children|] == records;
    FoldWellFormed(records);
    var out: seq<Record> := [];
    for i := 0 to |users|
      invariant out == Values(Latest(users[..i], last))
    {
      out := out + [last[users[i]]];
    }
    assert users[..|users|] == users;
    r := Some(out);
  }

  /** At most one record per dict key, each the last location whose user id is that
      key, and only locations with a truthy user id count. */
  lemma LatestPerUser(locations: seq<Record>)
    ensures var acc := Fold(locations);
            |LatestLocations(locations)| == |acc.users|
            && (forall i, j :: 0 <= i < j < |acc.users| ==> acc.users[i] != acc.users[j])
            && (forall i :: 0 <= i < |acc.users| ==>
                  (Truthy(acc.users[i])
                   && KeyOf(UserOf(LatestLocations(locations)[i])) == acc.users[i]
                   && exists j :: 0 <= j < |locations| && locations[j] == LatestLocations(locations)[i]
                                  && forall j' :: j < j' < |locations| ==> KeyOf(UserOf(locations[j'])) != acc.users[i]))
  {
    var acc := Fold(locations);
    FoldWellFormed(locations);
    FoldUsers(locations);
    forall i | 0 <= i < |acc.users|
      ensures Truthy(acc.users[i])
      ensures KeyOf(UserOf(LatestLocations(locations)[i])) == acc.users[i]
      ensures exists j :: 0 <= j < |locations| && locations[j] == LatestLocations(locations)[i]
                          && forall j' :: j < j' < |locations| ==> KeyOf(UserOf(locations[j'])) != acc.users[i]
    {
      FoldKeepsLast(locations, acc.users[i]);
    }
  }

  /** A user id 1 followed by the id true is one dict key: only the later location is
      kept. */
  lemma TrueAndOneAreOneUser(a: Record, b: Record)
    requires UserOf(a) == Num(1.0) && UserOf(b) == Bool(true)
    ensures LatestLocations([a, b]) == [b]
  {
    assert [a][..0] == [];
    assert Fold([a]) == Latest([Num(1.0)], map[Num(1.0) := a]);
    assert [a, b][..1] == [a];
    assert Fold([a, b]) == Latest([Num(1.0)], map[Num(1.0) := b]);
  }

  // ---------------------------------------------------------------------------
  // The store

  function ZoneRecord(lat: Value, lng: Value, radius: Value, description: Value, zoneType: Value, source: Value): Record {
    map["lat" := lat, "lng" := lng, "radius" := radius, "description" := description,
        "type" := zoneType, "source" := source]
  }

  function AlertRecord(userId: Value, kind: string, details: Value, timestamp: real): Record {
    map["user_id" := userId, "type" := Str(kind), "details" := details, "timestamp" := Num(timestamp)]
  }

  /** Does the zone match `order_by_child("source").equal_to(tag)`? */
  predicate HasSource(z: Value, tag: string) {
    z.Obj? && "source" in z.fields && z.fields["source"] == Str(tag)
  }

  function SourceKeys(zones: map<string, Value>, tag: string): set<string> {
    set k | k in zones && HasSource(zones[k], tag)
  }

  /** The arguments of one add_zone call. */
  datatype ZoneArgs = ZoneArgs(lat: Value, lng: Value, radius: Value, description: Value,
                               zoneType: Value, source: Value)

  function ZoneOf(a: ZoneArgs): Record {
    ZoneRecord(a.lat, a.lng, a.radius, a.description, a.zoneType, a.source)
  }

  /** The zone records of the add_zone calls that did not raise (`fails`), in order. */
  function Written(calls: seq<ZoneArgs>, fails: Record -> bool): seq<Record>
    decreases |calls|
  {
    if calls == [] then []
    else
      var n := |calls| - 1;
      Written(calls[..n], fails) + if fails(ZoneOf(calls[n])) then [] else [ZoneOf(calls[n])]
  }

  /** Every record written is the record of some call. */
  lemma {:induction false} WrittenFrom(calls: seq<ZoneArgs>, fails: Record -> bool)
    ensures |Written(calls, fails)| <= |calls|
    ensures forall k :: 0 <= k < |Written(calls, fails)| ==>
              exists i :: 0 <= i < |calls| && Written(calls, fails)[k] == ZoneOf(calls[i])
    decreases |calls|
  {
    if calls != [] {
      var n := |calls| - 1;
      WrittenFrom(calls[..n], fails);
      var before := Written(calls[..n], fails);
      forall k | 0 <= k < |Written(calls, fails)|
        ensures exists i :: 0 <= i < |calls| && Written(calls, fails)[k] == ZoneOf(calls[i])
      {
        if k < |before| {
          var i :| 0 <= i < n && before[k] == ZoneOf(calls[..n][i]);
          assert calls[..n][i] == calls[i];
        } else {
          assert Written(calls, fails)[k] == ZoneOf(calls[n]);
        }
      }
    }
  }

  /** The zones left once the keys in `deleted` are deleted. */
  function Without(zones: map<string, Value>, deleted: set<string>): map<string, Value> {
    map k | k in zones && k !in deleted :: zones[k]
  }

  /** Deleting keys leaves a subset of the keys. */
  lemma WithoutKeys(zones: map<string, Value>, deleted: set<string>)
    ensures Without(zones, deleted).Keys == zones.Keys - deleted
  {
  }

  /** Deleting one more key from what is left. */
  lemma WithoutStep(zones: map<string, Value>, deleted: set<string>, k: string)
    ensures Without(zones, deleted) - {k} == Without(zones, deleted + {k})
  {
  }

  /** The zones left once those with the source tag are deleted. */
  function WithoutSource(zones: map<string, Value>, tag: string): map<string, Value> {
    Without(zones, SourceKeys(zones, tag))
  }

  /** How clear_zones_by_source can raise: the query itself (the REST query needs an
      index on "source"), or the delete of one matching zone. */
  datatype ClearFaults = ClearFaults(queryFails: bool, deleteFails: string -> bool)

  /** clear_zones_by_source runs to its end: the query answers and no delete of a
      matching zone fails. */
  predicate ClearSucceeds(zones: map<string, Value>, tag: string, faults: ClearFaults) {
    !faults.queryFails && forall k :: k in SourceKeys(zones, tag) ==> !faults.deleteFails(k)
  }

  /** Keys that add_zone may have pushed: distinct, plain and new to the zones. */
  ghost predicate FreshKeys(zones: map<string, Value>, keys: seq<string>) {
    (forall i :: 0 <= i < |keys| ==> keys[i] !in zones && PlainKey(keys[i]))
    && (forall i, j :: 0 <= i < j < |keys| ==> keys[i] != keys[j])
  }

  /** The zones after pushing `added[i]` under `keys[i]`, in order. */
  function Inserted(zones: map<string, Value>, keys: seq<string>, added: seq<Record>): map<string, Value>
    requires |keys| == |added|
    decreases |keys|
  {
    if keys == [] then zones
    else
      var n := |keys| - 1;
      Inserted(zones, keys[..n], added[..n])[keys[n] := Obj(added[n])]
  }

  /** After a run of pushes under fresh keys, the old zones are all still there, each
      pushed record sits under its own key, and there is nothing else. */
  lemma {:induction false} InsertedHolds(zones: map<string, Value>, keys: seq<string>, added: seq<Record>)
    requires |keys| == |added| && FreshKeys(zones, keys)
    ensures forall k :: k in Inserted(zones, keys, added) <==> k in zones || k in keys
    ensures forall k :: k in zones ==> Inserted(zones, keys, added)[k] == zones[k]
    ensures forall i :: 0 <= i < |keys| ==> Inserted(zones, keys, added)[keys[i]] == Obj(added[i])
    decreases |keys|
  {
    if keys != [] {
      var n := |keys| - 1;
      var before := Inserted(zones, keys[..n], added[..n]);
      assert FreshKeys(zones, keys[..n]);
      InsertedHolds(zones, keys[..n], added[..n]);
      assert forall k :: k in keys <==> k in keys[..n] || k == keys[n];
      forall i | 0 <= i < n ensures Inserted(zones, keys, added)[keys[i]] == Obj(added[i]) {
        assert keys[..n][i] == keys[i] && added[..n][i] == added[i];
      }
    }
  }

  /** One more push under a key that is new to the zones. */
  lemma InsertedStep(zones: map<string, Value>, keys: seq<string>, added: seq<Record>, key: string, r: Record)
    requires |keys| == |added| && FreshKeys(zones, keys)
    requires key !in Inserted(zones, keys, added) && PlainKey(key)
    ensures FreshKeys(zones, keys + [key])
    ensures Inserted(zones, keys + [key], added + [r]) == Inserted(zones, keys, added)[key := Obj(r)]
  {
    InsertedHolds(zones, keys, added);
    assert (keys + [key])[..|keys|] == keys && (added + [r])[..|added|] == added;
  }

  /** A re-import replaces rather than duplicates: once the zones with the tag are
      cleared and the new records, all carrying the tag, are pushed, the zones with
      the tag are exactly the new ones. */
  lemma ReimportReplaces(zones: map<string, Value>, tag: string, keys: seq<string>, added: seq<Record>)
    requires |keys| == |added| && FreshKeys(WithoutSource(zones, tag), keys)
    requires forall i :: 0 <= i < |added| ==> HasSource(Obj(added[i]), tag)
    ensures forall k :: k in SourceKeys(Inserted(WithoutSource(zones, tag), keys, added), tag) <==> k in keys
    ensures forall k :: k in zones && !HasSource(zones[k], tag) ==>
              k in Inserted(WithoutSource(zones, tag), keys, added)
              && Inserted(WithoutSource(zones, tag), keys, added)[k] == zones[k]
  {
    InsertedHolds(WithoutSource(zones, tag), keys, added);
    var after := Inserted(WithoutSource(zones, tag), keys, added);
    forall k | k in keys ensures k in SourceKeys(after, tag) {
      var i :| 0 <= i < |keys| && keys[i] == k;
    }
  }

  /** A re-import after a clear that stopped part-way: the zones with the tag are the
      old ones the clear did not reach, next to the new ones; every zone the clear did
      not delete is kept unchanged. */
  lemma ReimportAfterPartialClear(zones: map<string, Value>, tag: string, deleted: set<string>,
                                  keys: seq<string>, added: seq<Record>)
    requires deleted <= SourceKeys(zones, tag)
    requires |keys| == |added| && FreshKeys(Without(zones, deleted), keys)
    requires forall i :: 0 <= i < |added| ==> HasSource(Obj(added[i]), tag)
    ensures var after := Inserted(Without(zones, deleted), keys, added);
            (forall k :: k in SourceKeys(after, tag) <==> (k in SourceKeys(zones, tag) && k !in deleted) || k in keys)
            && forall k :: k in zones && k !in deleted ==> k in after && after[k] == zones[k]
  {
    var base := Without(zones, deleted);
    InsertedHolds(base, keys, added);
    var after := Inserted(base, keys, added);
    forall k | k in keys ensures k in SourceKeys(after, tag) {
      var i :| 0 <= i < |keys| && keys[i] == k;
    }
  }

  /** A listing of the zones as get_all_zones gives it: each dict-valued zone exactly
      once, stamped with its key as "id", and nothing else. */
  ghost predicate IsListing(all: seq<Record>, zones: map<string, Value>) {
    (forall i :: 0 <= i < |all| ==>
       ("id" in all[i] && all[i]["id"].Str? && all[i]["id"].s in DictKeys(zones)
        && all[i] == Stamped(zones, all[i]["id"].s)))
    && (forall k :: k in DictKeys(zones) ==> Stamped(zones, k) in all)
    && (forall i, j :: 0 <= i < j < |all| ==> all[i]["id"] != all[j]["id"])
  }

  class Store {
    /** The children of the "zones" node; an empty map stands for the '' the node is
        initialised to, or for an absent node. */
    var zones: map<string, Value>
    /** The "admins" node in push order. */
    var admins: seq<Record>
    /** The "anomaly_alerts" node in push order. */
    var alerts: seq<Record>
    /** The "tourist_paths" node. */
    var touristPaths: map<string, Value>
    /** The "police_locations" node in push order. */
    var policeLocations: seq<Value>

    /** Every zone key names one child: keys come from push or from the data set. */
    ghost predicate Valid()
      reads this
    {
      forall k :: k in zones ==> PlainKey(k)
    }

    constructor ()
      ensures zones == map[] && admins == [] && alerts == [] && touristPaths == map[]
      ensures policeLocations == []
      ensures Valid()
    {
      policeLocations := [];
      zones := map[];
      admins := [];
      alerts := [];
      touristPaths := map[];
    }

    /** get_all_zones: every dict-valued zone, stamped with its key as "id"; other
        values are skipped. The listing order is the node's iteration order, which the
        model leaves open. */
    method GetAllZones() returns (r: seq<Record>)
      ensures IsListing(r, zones)
    {
      r := [];
      var rest := zones.Keys;
      while rest != {}
        invariant rest <= zones.Keys
        invariant forall i :: 0 <= i < |r| ==>
                    ("id" in r[i] && r[i]["id"].Str? && r[i]["id"].s in DictKeys(zones)
                     && r[i]["id"].s !in rest && r[i] == Stamped(zones, r[i]["id"].s))
        invariant forall k :: k in DictKeys(zones) && k !in rest ==> Stamped(zones, k) in r
        invariant forall i, j :: 0 <= i < j < |r| ==> r[i]["id"] != r[j]["id"]
        decreases |rest|
      {
        var k :| k in rest;
        if zones[k].Obj? {
          r := r + [Stamped(zones, k)];
        }
        rest := rest - {k};
      }
    }

    /** add_zone: pushes one zone record under a fresh key and returns the key. */
    method AddZone(lat: Value, lng: Value, radius: Value, description: Value,
                   zoneType: Value := Str("manual"), source: Value := Str("manual")) returns (key: string)
      requires Valid()
      modifies this
      ensures Valid()
      ensures key !in old(zones)
      ensures zones == old(zones)[key := Obj(ZoneRecord(lat, lng, radius, description, zoneType, source))]
      ensures admins == old(admins) && alerts == old(alerts) && touristPaths == old(touristPaths)
              && policeLocations == old(policeLocations)
    {
      key := NewPushKey(zones.Keys);
      zones := zones[key := Obj(ZoneRecord(lat, lng, radius, description, zoneType, source))];
    }

    /** One add_zone call inside `try`: the zone is pushed unless the call raises
        (`fails`), and the pushes so far stay described by Inserted over `base`. */
    method TryAddZone(a: ZoneArgs, fails: Record -> bool, ghost base: map<string, Value>,
                      ghost keys: seq<string>, ghost calls: seq<ZoneArgs>)
      returns (added: bool, ghost keys': seq<string>)
      requires Valid() && FreshKeys(base, keys) && |keys| == |Written(calls, fails)|
      requires zones == Inserted(base, keys, Written(calls, fails))
      modifies this
      ensures Valid() && FreshKeys(base, keys') && |keys'| == |Written(calls + [a], fails)|
      ensures zones == Inserted(base, keys', Written(calls + [a], fails))
      ensures added <==> !fails(ZoneOf(a))
      ensures |keys'| == |keys| + if added then 1 else 0
      ensures admins == old(admins) && alerts == old(alerts) && touristPaths == old(touristPaths)
              && policeLocations == old(policeLocations)
    {
      assert Written(calls + [a], fails)
             == Written(calls, fails) + if fails(ZoneOf(a)) then [] else [ZoneOf(a)] by {
        assert (calls + [a])[..|calls|] == calls;
      }
      keys' := keys;
      added := !fails(ZoneOf(a));
      if added {
        var key := AddZone(a.lat, a.lng, a.radius, a.description, a.zoneType, a.source);
        InsertedStep(base, keys, Written(calls, fails), key, ZoneOf(a));
        keys' := keys + [key];
        assert Written(calls + [a], fails) == Written(calls, fails) + [ZoneOf(a)];
      } else {
        assert Written(calls + [a], fails) == Written(calls, fails);
      }
    }

    /** delete_zone_by_id: False when the SDK refuses the path or the request fails
        (`unreachable`), otherwise the node at "zones/<id>" is deleted (if it exists)
        and the answer is True. */
    method DeleteZoneById(id: string, unreachable: bool) returns (ok: bool)
      requires Valid()
      modifies this
      ensures Valid()
      ensures ok <==> !HasForbiddenChar(id) && !unreachable
      ensures zones == if ok then DeletedAt(old(zones), id) else old(zones)
      ensures admins == old(admins) && alerts == old(alerts) && touristPaths == old(touristPaths)
              && policeLocations == old(policeLocations)
    {
      if HasForbiddenChar(id) || unreachable {
        return false;
      }
      var segs := Pieces(id, IsSlash);
      if segs == [] {
        zones := map[];
      } else {
        zones := RemoveIn(zones, segs);
        RemoveInKeys(old(zones), segs);
      }
      ok := true;
    }

    /** clear_zones_by_source: queries the dict zones whose "source" is the tag, then
        deletes them one by one, in an order the query leaves open, and returns how many
        it deleted. `raised` reports an exception: the query fails (nothing is deleted),
        or the delete of some matching zone fails (the zones deleted before it stay
        deleted). `deleted` names the zones it removed. */
    method ClearZonesBySource(tag: string, faults: ClearFaults) returns (count: nat, raised: bool, ghost deleted: set<string>)
      requires Valid()
      modifies this
      ensures Valid()
      ensures raised <==> !ClearSucceeds(old(zones), tag, faults)
      ensures deleted <= SourceKeys(old(zones), tag) && zones == Without(old(zones), deleted)
      ensures !raised ==> deleted == SourceKeys(old(zones), tag) && count == |deleted|
      ensures faults.queryFails ==> deleted == {}
      ensures forall k :: k in deleted ==> !faults.deleteFails(k)
      ensures admins == old(admins) && alerts == old(alerts) && touristPaths == old(touristPaths)
              && policeLocations == old(policeLocations)
    {
      count, raised, deleted := 0, false, {};
      if faults.queryFails {
        assert Without(zones, {}) == zones;
        return 0, true, {};
      }
      var matching := SourceKeys(zones, tag);
      if matching == {} {
        assert Without(zones, {}) == zones;
        return;
      }
      count, raised, deleted := DeleteMatching(matching, faults);
    }

    /** The loop of clear_zones_by_source: deletes the given zones one at a time and
        stops at the first delete that fails. The keys come from the store, so they are
        plain and each child delete removes exactly that entry (see DeletePlainKey). */
    method DeleteMatching(matching: set<string>, faults: ClearFaults) returns (count: nat, raised: bool, ghost deleted: set<string>)
      requires Valid() && matching <= zones.Keys
      modifies this`zones
      ensures Valid()
      ensures deleted <= matching && zones == Without(old(zones), deleted) && count == |deleted|
      ensures raised <==> exists k :: k in matching && faults.deleteFails(k)
      ensures !raised ==> deleted == matching
      ensures forall k :: k in deleted ==> !faults.deleteFails(k)
    {
      count, raised, deleted := 0, false, {};
      ghost var base := zones;
      assert Without(base, {}) == zones;
      var gone: set<string> := {};
      while gone != matching
        invariant gone <= matching && count == |gone|
        invariant zones == Without(base, gone)
        invariant forall k :: k in gone ==> !faults.deleteFails(k)
        decreases |matching - gone|
      {
        var k :| k in matching - gone;
        if faults.deleteFails(k) {
          WithoutKeys(base, gone);
          return count, true, gone;
        }
        WithoutStep(base, gone, k);
        zones := zones - {k};
        gone := gone + {k};
        count := count + 1;
      }
      WithoutKeys(base, gone);
      deleted := gone;
    }

    /** create_admin: None and no write when the username is taken; otherwise one admin
        record (username and bcrypt hash) is pushed and returned. */
    method CreateAdmin(username: string, passwordHash: string) returns (r: Option<Record>)
      modifies this
      ensures FindAdmin(old(admins), username).Some? ==> r.None? && admins == old(admins)
      ensures FindAdmin(old(admins), username).None? ==>
                r == Some(AdminRecord(username, passwordHash))
                && admins == old(admins) + [AdminRecord(username, passwordHash)]
      ensures zones == old(zones) && alerts == old(alerts) && touristPaths == old(touristPaths)
              && policeLocations == old(policeLocations)
    {
      if FindAdmin(admins, username).Some? {
        return None;
      }
      var admin := AdminRecord(username, passwordHash);
      admins := admins + [admin];
      r := Some(admin);
    }

    /** `db.reference('police_locations').push(unit)`: one unit appended as given. */
    method PushPoliceLocation(unit: Value)
      modifies this
      ensures policeLocations == old(policeLocations) + [unit]
      ensures zones == old(zones) && admins == old(admins) && alerts == old(alerts)
              && touristPaths == old(touristPaths)
    {
      policeLocations := policeLocations + [unit];
    }

    /** log_anomaly: pushes exactly one alert, stamped with the clock reading. */
    method LogAnomaly(userId: Value, kind: string, details: Value, clock: real)
      modifies this
      ensures alerts == old(alerts) + [AlertRecord(userId, kind, details, clock)]
      ensures zones == old(zones) && admins == old(admins) && touristPaths == old(touristPaths)
              && policeLocations == old(policeLocations)
    {
      alerts := alerts + [AlertRecord(userId, kind, details, clock)];
    }

    /** add_planned_tourist_path: stores the user's path. The SDK refuses to set None
        (ValueError), which `raised` reports, and then nothing is written. */
    method SetPlannedPath(userId: string, path: Value) returns (raised: bool)
      modifies this
      ensures raised <==> path == Null
      ensures touristPaths == if raised then old(touristPaths) else old(touristPaths)[userId := path]
      ensures zones == old(zones) && admins == old(admins) && alerts == old(alerts)
              && policeLocations == old(policeLocations)
    {
      if path == Null {
        return true;
      }
      touristPaths := touristPaths[userId := path];
      raised := false;
    }
  }

  /** A deletion keeps only keys that were there. */
  lemma RemoveInKeys(m: map<string, Value>, segs: seq<string>)
    requires segs != []
    ensures RemoveIn(m, segs).Keys <= m.Keys
  {
  }

  /** The listing of the zones after add_zone is the listing before plus the new zone
      stamped with its key. */
  lemma AddedZoneIsListed(zones: map<string, Value>, key: string, zone: Record)
    requires key !in zones
    ensures DictKeys(zones[key := Obj(zone)]) == DictKeys(zones) + {key}
    ensures Stamped(zones[key := Obj(zone)], key) == zone["id" := Str(key)]
    ensures forall k :: k in DictKeys(zones) ==> Stamped(zones[key := Obj(zone)], k) == Stamped(zones, k)
  {
  }

  /** After clear_zones_by_source no zone carries the tag, and every other zone is kept. */
  lemma ClearedLeavesNoTag(zones: map<string, Value>, tag: string)
    ensures var after := map k | k in zones && k !in SourceKeys(zones, tag) :: zones[k];
            SourceKeys(after, tag) == {}
            && (forall k :: k in zones && !HasSource(zones[k], tag) ==> k in after && after[k] == zones[k])
  {
  }
}
