/** The OpenStreetMap import (update_osm_zones.py): clear the zones tagged "osm", then
    turn every OSM feature with a large enough area into a circular zone. The Overpass
    request, the GeoJSON conversion and shapely's geometry are not modelled: the
    features arrive as records and each geometry's area and centroid come from an
    oracle. */
module UpdateOsmZones {
  import opened Common
  import opened Database
  import Overpass

  /** The Hyderabad box the script queries, (south, west, north, east). */
  const Bbox: Overpass.BoundingBox := Overpass.BoundingBox(17.10, 78.00, 17.60, 78.60)

  const TagQueries: seq<string> := [
    "way[\"landuse\"=\"military\"]",
    "relation[\"landuse\"=\"military\"]",
    "way[\"amenity\"=\"police\"]",
    "relation[\"amenity\"=\"police\"]",
    "way[\"amenity\"=\"fire_station\"]",
    "relation[\"amenity\"=\"fire_station\"]"
  ]

  /** `shape(geom)`: None when shapely raises on the GeoJSON geometry. */
  type ShapeOracle = Value -> Option<Shape>

  const MetresPerDegree: real := 111000.0
  const MinRadius: real := 50.0

  /** get_centroid_and_radius: no result for a zero-area geometry; otherwise the
      centroid and the radius of the circle whose area, at 111 km per degree, matches
      the geometry's. */
  function GetCentroidAndRadius(s: Shape, sqrt: Sqrt): (r: Option<((real, real), real)>)
    ensures r.None? <==> s.area == 0.0
    ensures r.Some? ==> r.value.0 == (s.x, s.y)
                        && r.value.1 == sqrt(s.area * (MetresPerDegree * MetresPerDegree) / 3.14159)
  {
    if s.area == 0.0 then None
    else Some(((s.x, s.y), sqrt(s.area * (MetresPerDegree * MetresPerDegree) / 3.14159)))
  }

  /** A zone as this script writes it. */
  predicate IsOsmZone(z: Record) {
    Get(z, "type", Null) == Str("osm_imported") && HasSource(Obj(z), "osm")
    && Get(z, "radius", Null).Num? && Get(z, "radius", Null).n >= MinRadius
  }

  predicate IsOsmCall(a: ZoneArgs) {
    a.zoneType == Str("osm_imported") && a.source == Str("osm")
    && a.description.Str? && "OSM Imported: " <= a.description.s
    && a.radius.Num? && a.radius.n >= MinRadius
  }

  /** The description: "OSM Imported: <name> (Type: <landuse>/<amenity>)". */
  function Describe(props: Record, repr: Value -> string): string {
    "OSM Imported: " + PyStr(Get(props, "name", Str("Unnamed Zone")), repr)
    + " (Type: " + PyStr(Get(props, "landuse", Str("N/A")), repr)
    + "/" + PyStr(Get(props, "amenity", Str("N/A")), repr) + ")"
  }

  /** One pass of the import loop: a feature without a geometry, with zero area or
      with a radius under 50 m is skipped; shapely failing on the geometry, or
      properties that are not a dict, raise. */
  function ReadFeature(feature: Record, shapeOf: ShapeOracle, sqrt: Sqrt, repr: Value -> string)
    : (r: EntryOutcome<ZoneArgs>)
    ensures r.Keep? ==> IsOsmCall(r.result)
    ensures !Truthy(Get(feature, "geometry", Null)) ==> r.Skip?
    ensures r.Keep? ==> shapeOf(Get(feature, "geometry", Null)).Some?
                        && shapeOf(Get(feature, "geometry", Null)).value.area != 0.0
  {
    var geom := Get(feature, "geometry", Null);
    var props := Get(feature, "properties", Null);
    if !Truthy(geom) then Skip
    else match shapeOf(geom)
      case None => Crash
      case Some(s) =>
        match GetCentroidAndRadius(s, sqrt)
        case None => Skip
        case Some(cr) =>
          if cr.1 < MinRadius then Skip
          else if !props.Obj? then Crash
          else Keep(ZoneArgs(Num(cr.0.1), Num(cr.0.0), Num(cr.1), Str(Describe(props.fields, repr)),
                             Str("osm_imported"), Str("osm")))
  }

  function ReadWith(shapeOf: ShapeOracle, sqrt: Sqrt, repr: Value -> string): Record -> EntryOutcome<ZoneArgs> {
    f => ReadFeature(f, shapeOf, sqrt, repr)
  }

  /** The main loop of the script, after the start-up: clears the "osm" zones, then
      adds one zone per kept feature. A clear that raises is reported and the import
      goes on, next to the "osm" zones the clear did not reach (`deleted` names the
      ones it removed). `features` is None when the Overpass request fails (the script
      returns); `writeFails` says which add_zone calls raise (they are reported and
      not counted). `crashed` reports an exception that ends the script. */
  method ImportOsmZones(store: Store, clearFaults: ClearFaults, features: Option<seq<Record>>, shapeOf: ShapeOracle,
                        sqrt: Sqrt, repr: Value -> string, writeFails: Record -> bool)
    returns (count: nat, crashed: bool, ghost keys: seq<string>, ghost deleted: set<string>)
    requires store.Valid()
    modifies store
    ensures store.Valid()
    ensures deleted <= SourceKeys(old(store.zones), "osm")
    ensures ClearSucceeds(old(store.zones), "osm", clearFaults) ==> deleted == SourceKeys(old(store.zones), "osm")
    ensures clearFaults.queryFails ==> deleted == {}
    ensures features.None? ==> count == 0 && !crashed && keys == []
    ensures var planned := if features.None? then Processed([], false)
                           else Run(features.value, ReadWith(shapeOf, sqrt, repr));
            var written := Written(planned.kept, writeFails);
            crashed == planned.crashed && count == |keys| == |written|
            && FreshKeys(Without(old(store.zones), deleted), keys)
            && store.zones == Inserted(Without(old(store.zones), deleted), keys, written)
    ensures store.admins == old(store.admins) && store.alerts == old(store.alerts)
            && store.touristPaths == old(store.touristPaths) && store.policeLocations == old(store.policeLocations)
  {
    var clearedCount, clearRaised;
    clearedCount, clearRaised, deleted := store.ClearZonesBySource("osm", clearFaults);
    ghost var base := store.zones;
    count, crashed, keys := 0, false, [];
    if features.None? {
      return;
    }
    var feats := features.value;
    var read := ReadWith(shapeOf, sqrt, repr);
    ghost var planned: seq<ZoneArgs> := [];
    for i := 0 to |feats|
      invariant Run(feats[..i], read) == Processed(planned, false)
      invariant count == |keys| == |Written(planned, writeFails)|
      invariant FreshKeys(base, keys) && store.zones == Inserted(base, keys, Written(planned, writeFails))
      invariant store.Valid()
      invariant store.admins == old(store.admins) && store.alerts == old(store.alerts)
                && store.touristPaths == old(store.touristPaths) && store.policeLocations == old(store.policeLocations)
    {
      var stop;
      count, stop, keys, planned := ImportFeature(store, feats, read, writeFails, i, base, keys, planned, count);
      if stop {
        RunStops(feats, read, i + 1);
        crashed := true;
        return;
      }
    }
    assert feats[..|feats|] == feats;
  }

  /** One turn of the import loop: feature i is skipped, raises (`stop`), or adds its
      zone after those of the features before it. */
  method ImportFeature(store: Store, feats: seq<Record>, read: Record -> EntryOutcome<ZoneArgs>,
                       writeFails: Record -> bool, i: nat, ghost cleared: map<string, Value>,
                       ghost keys: seq<string>, ghost planned: seq<ZoneArgs>, count: nat)
    returns (count': nat, stop: bool, ghost keys': seq<string>, ghost planned': seq<ZoneArgs>)
    requires i < |feats| && Run(feats[..i], read) == Processed(planned, false)
    requires count == |keys| == |Written(planned, writeFails)|
    requires store.Valid() && FreshKeys(cleared, keys) && store.zones == Inserted(cleared, keys, Written(planned, writeFails))
    modifies store
    ensures Run(feats[..i + 1], read) == Processed(planned', stop)
    ensures count' == |keys'| == |Written(planned', writeFails)|
    ensures store.Valid() && FreshKeys(cleared, keys') && store.zones == Inserted(cleared, keys', Written(planned', writeFails))
    ensures store.admins == old(store.admins) && store.alerts == old(store.alerts)
            && store.touristPaths == old(store.touristPaths) && store.policeLocations == old(store.policeLocations)
  {
    RunStep(feats, read, i);
    count', stop, keys', planned' := count, false, keys, planned;
    match read(feats[i]) {
      case Crash =>
        stop := true;
      case Skip =>
      case Keep(a) =>
        var added;
        added, keys' := store.TryAddZone(a, writeFails, cleared, keys, planned);
        if added {
          count' := count + 1;
        }
        planned' := planned + [a];
    }
  }

  /** Every zone the script writes is an "osm_imported" zone tagged "osm", at least
      50 m wide, described as "OSM Imported: ..."; it writes no more zones than there
      are features. */
  lemma WrittenZonesAreOsm(features: seq<Record>, shapeOf: ShapeOracle, sqrt: Sqrt, repr: Value -> string,
                           writeFails: Record -> bool)
    ensures var written := Written(Run(features, ReadWith(shapeOf, sqrt, repr)).kept, writeFails);
            |written| <= |features|
            && forall k :: 0 <= k < |written| ==>
                 IsOsmZone(written[k])
  {
    var read := ReadWith(shapeOf, sqrt, repr);
    var planned := Run(features, read).kept;
    RunKeeps(features, read);
    WrittenFrom(planned, writeFails);
    assert forall i :: 0 <= i < |planned| ==> IsOsmCall(planned[i]) by {
      forall i | 0 <= i < |planned| ensures IsOsmCall(planned[i]) {
        var j :| 0 <= j < |features| && read(features[j]) == Keep(planned[i]);
      }
    }
    forall k | 0 <= k < |Written(planned, writeFails)|
      ensures IsOsmZone(Written(planned, writeFails)[k])
    {
      var i :| 0 <= i < |planned| && Written(planned, writeFails)[k] == ZoneOf(planned[i]);
      OsmCallWritesOsmZone(planned[i]);
    }
  }

  lemma OsmCallWritesOsmZone(a: ZoneArgs)
    requires IsOsmCall(a)
    ensures IsOsmZone(ZoneOf(a))
  {
  }

  /** When the clear raised part-way (or at its query, deleting nothing), the "osm"
      zones after the import are the old ones it did not delete next to the new ones,
      and every zone it did not delete is kept. */
  lemma ImportAfterFailedClear(zones: map<string, Value>, deleted: set<string>, features: seq<Record>,
                               shapeOf: ShapeOracle, sqrt: Sqrt, repr: Value -> string, writeFails: Record -> bool,
                               keys: seq<string>)
    requires deleted <= SourceKeys(zones, "osm")
    requires var written := Written(Run(features, ReadWith(shapeOf, sqrt, repr)).kept, writeFails);
             |keys| == |written| && FreshKeys(Without(zones, deleted), keys)
    ensures var after := Inserted(Without(zones, deleted),
                                  keys, Written(Run(features, ReadWith(shapeOf, sqrt, repr)).kept, writeFails));
            (forall k :: k in SourceKeys(after, "osm") <==> (k in SourceKeys(zones, "osm") && k !in deleted) || k in keys)
            && forall k :: k in zones && k !in deleted ==> k in after && after[k] == zones[k]
  {
    var written := Written(Run(features, ReadWith(shapeOf, sqrt, repr)).kept, writeFails);
    WrittenZonesAreOsm(features, shapeOf, sqrt, repr, writeFails);
    ReimportAfterPartialClear(zones, "osm", deleted, keys, written);
  }

  /** Running the import replaces the previous "osm" zones by the new ones and keeps
      every zone from another source. */
  lemma ImportReplacesOsmZones(zones: map<string, Value>, features: seq<Record>, shapeOf: ShapeOracle,
                               sqrt: Sqrt, repr: Value -> string, writeFails: Record -> bool, keys: seq<string>)
    requires var written := Written(Run(features, ReadWith(shapeOf, sqrt, repr)).kept, writeFails);
             |keys| == |written| && FreshKeys(WithoutSource(zones, "osm"), keys)
    ensures var after := Inserted(WithoutSource(zones, "osm"),
                                  keys, Written(Run(features, ReadWith(shapeOf, sqrt, repr)).kept, writeFails));
            (forall k :: k in SourceKeys(after, "osm") <==> k in keys)
            && forall k :: k in zones && !HasSource(zones[k], "osm") ==> k in after && after[k] == zones[k]
  {
    WrittenZonesAreOsm(features, shapeOf, sqrt, repr, writeFails);
    ReimportReplaces(zones, "osm", keys, Written(Run(features, ReadWith(shapeOf, sqrt, repr)).kept, writeFails));
  }
}
