/** The OpenStreetMap geofence import (xy.py): every GeoJSON feature with a geometry
    becomes one Firestore "geofences" document per polygon, holding the exterior
    ring's points as {"lat", "lon"} records. The Overpass request, the GeoJSON
    conversion and shapely's simplification are not modelled: the features arrive as
    records and the simplified geometry as an oracle. */
module XyGeofences {
  import opened Common
  import Overpass

  /** The Hyderabad box the script queries, (south, west, north, east). */
  const Bbox: Overpass.BoundingBox := Overpass.BoundingBox(17.10, 78.00, 17.60, 78.60)

  const TagQueries: seq<string> := [
    "way[\"landuse\"=\"military\"]",
    "relation[\"landuse\"=\"military\"]",
    "way[\"aeroway\"=\"aerodrome\"]",
    "relation[\"aeroway\"=\"aerodrome\"]",
    "way[\"boundary\"=\"protected_area\"]",
    "relation[\"boundary\"=\"protected_area\"]",
    "way[\"boundary\"=\"national_park\"]",
    "relation[\"boundary\"=\"national_park\"]"
  ]

  /** The "coordinates" of shapely's `mapping`: numbers nested in tuples. */
  datatype Coords = Coord(c: real) | Tuple(items: seq<Coords>)

  /** `mapping(sgeom)`: its "type" and "coordinates"; None when shapely raises. */
  datatype Mapped = Mapped(kind: string, coords: Coords)
  type MapOracle = Value -> Option<Mapped>

  /** `c[0]`: None on the IndexError of an empty tuple or the TypeError of a number. */
  function First(c: Coords): Option<Coords> {
    if c.Tuple? && c.items != [] then Some(c.items[0]) else None
  }

  /** One `lon, lat` of a ring as the record {"lat": float(lat), "lon": float(lon)};
      None when the unpacking or float() raises. */
  function PointRecord(p: Coords): Option<Value> {
    if p.Tuple? && |p.items| == 2 && p.items[0].Coord? && p.items[1].Coord? then
      Some(Obj(map["lat" := Num(p.items[1].c), "lon" := Num(p.items[0].c)]))
    else None
  }

  /** The records of the points, in order; None when one of them raises. */
  function PointRecords(points: seq<Coords>): (r: Option<seq<Value>>)
    ensures r.Some? ==> |r.value| == |points|
    decreases |points|
  {
    if points == [] then Some([])
    else
      var n := |points| - 1;
      match (PointRecords(points[..n]), PointRecord(points[n]))
      case (Some(front), Some(p)) => Some(front + [p])
      case _ => None
  }

  /** A ring's records; iterating a number raises. */
  function RingPoints(ring: Coords): Option<seq<Value>> {
    if ring.Tuple? then PointRecords(ring.items) else None
  }

  /** Point i of the ring becomes record i, with the coordinates swapped into
      {"lat", "lon"}; one bad point loses the ring. */
  lemma {:induction false} PointRecordsMeaning(points: seq<Coords>)
    ensures PointRecords(points).None? <==> exists i :: 0 <= i < |points| && PointRecord(points[i]).None?
    ensures PointRecords(points).Some? ==>
              forall i :: 0 <= i < |points| ==> PointRecords(points).value[i] == PointRecord(points[i]).value
    decreases |points|
  {
    if points != [] {
      var n := |points| - 1;
      PointRecordsMeaning(points[..n]);
      assert forall i :: 0 <= i < n ==> points[..n][i] == points[i];
    }
  }

  /** `props.get("name") or props.get("ref") or "OSM geofence"` */
  function NameOf(props: Record): (r: Value)
    ensures Truthy(r)
    ensures Truthy(Get(props, "name", Null)) ==> r == props["name"]
    ensures !Truthy(Get(props, "name", Null)) && Truthy(Get(props, "ref", Null)) ==> r == props["ref"]
    ensures !Truthy(Get(props, "name", Null)) && !Truthy(Get(props, "ref", Null)) ==> r == Str("OSM geofence")
  {
    if Truthy(Get(props, "name", Null)) then props["name"]
    else if Truthy(Get(props, "ref", Null)) then props["ref"]
    else Str("OSM geofence")
  }

  /** The document written for one polygon. */
  function GeofenceDoc(props: Record, points: seq<Value>): Record {
    map["name" := NameOf(props), "type" := Str("polygon"), "risk_level" := Str("high"),
        "active" := Bool(true), "polygon" := Arr(points), "source" := Str("osm"), "osm_props" := Obj(props)]
  }

  /** The fields every geofence document carries. */
  predicate IsGeofenceDoc(d: Record) {
    "name" in d && Truthy(d["name"]) && Get(d, "type", Null) == Str("polygon")
    && Get(d, "risk_level", Null) == Str("high") && Get(d, "active", Null) == Bool(true)
    && Get(d, "source", Null) == Str("osm") && Get(d, "polygon", Null).Arr?
  }

  /** The document for one polygon (`rings = poly[0]`, its points, then the dict);
      None when one of these raises, `props.get` on a non-dict included. */
  function PolygonDoc(poly: Coords, props: Value): (r: Option<Record>)
    ensures r.Some? ==> props.Obj? && First(poly).Some? && RingPoints(First(poly).value).Some?
                        && r.value == GeofenceDoc(props.fields, RingPoints(First(poly).value).value)
  {
    match First(poly)
    case None => None
    case Some(ring) =>
      match RingPoints(ring)
      case None => None
      case Some(points) => if props.Obj? then Some(GeofenceDoc(props.fields, points)) else None
  }

  /** Documents added so far, and whether an exception ended the script. */
  datatype Outcome = Outcome(docs: seq<Record>, crashed: bool)

  /** The documents for a sequence of polygons, in order, up to the first one that
      raises or whose `coll.add` raises (`addFails`). */
  function PolygonDocs(polys: seq<Coords>, props: Value, addFails: Record -> bool): (r: Outcome)
    ensures |r.docs| <= |polys|
    decreases |polys|
  {
    if polys == [] then Outcome([], false)
    else
      var n := |polys| - 1;
      var before := PolygonDocs(polys[..n], props, addFails);
      if before.crashed then before
      else match PolygonDoc(polys[n], props)
        case None => Outcome(before.docs, true)
        case Some(d) => if addFails(d) then Outcome(before.docs, true) else Outcome(before.docs + [d], false)
  }

  /** What one feature adds: nothing without a geometry; one document for a
      "Polygon"; one per polygon for any other type, whose coordinates must be
      iterable. */
  function FeatureDocs(f: Record, mapped: MapOracle, addFails: Record -> bool): (r: Outcome)
    ensures !Truthy(Get(f, "geometry", Null)) ==> r == Outcome([], false)
  {
    var props := Get(f, "properties", Obj(map[]));
    var geom := Get(f, "geometry", Null);
    if !Truthy(geom) then Outcome([], false)
    else match mapped(geom)
      case None => Outcome([], true)
      case Some(m) =>
        if m.kind == "Polygon" then PolygonDocs([m.coords], props, addFails)
        else if m.coords.Tuple? then PolygonDocs(m.coords.items, props, addFails)
        else Outcome([], true)
  }

  /** The documents of the features, in order, up to the first exception. */
  function Ingested(features: seq<Record>, mapped: MapOracle, addFails: Record -> bool): Outcome
    decreases |features|
  {
    if features == [] then Outcome([], false)
    else
      var n := |features| - 1;
      var before := Ingested(features[..n], mapped, addFails);
      if before.crashed then before
      else
        var o := FeatureDocs(features[n], mapped, addFails);
        Outcome(before.docs + o.docs, o.crashed)
  }

  /** The "geofences" collection of Firestore, in the order documents were added. */
  class Firestore {
    var geofences: seq<Record>

    constructor ()
      ensures geofences == []
    {
      geofences := [];
    }

    /** `coll.add(doc)` */
    method Add(doc: Record)
      modifies this
      ensures geofences == old(geofences) + [doc]
    {
      geofences := geofences + [doc];
    }
  }

  /** The exterior ring loop of the "Polygon" branch, appending one record per point;
      `ok` is false when a point raises. */
  method RingToPoints(ring: Coords) returns (points: seq<Value>, ok: bool)
    ensures ok <==> RingPoints(ring).Some?
    ensures ok ==> points == RingPoints(ring).value
  {
    points := [];
    if !ring.Tuple? {
      return points, false;
    }
    var items := ring.items;
    for i := 0 to |items|
      invariant PointRecords(items[..i]) == Some(points)
    {
      assert items[..i + 1][..i] == items[..i];
      match PointRecord(items[i]) {
        case None =>
          PointRecordsStop(items, i + 1);
          return points, false;
        case Some(p) =>
          points := points + [p];
      }
    }
    assert items[..|items|] == items;
    ok := true;
  }

  /** Once a prefix of the points raises, the whole sequence does. */
  lemma {:induction false} PointRecordsStop(points: seq<Coords>, i: nat)
    requires i <= |points| && PointRecords(points[..i]).None?
    ensures PointRecords(points).None?
    decreases |points|
  {
    if i < |points| {
      var n := |points| - 1;
      assert points[..n][..i] == points[..i];
      PointRecordsStop(points[..n], i);
    } else {
      assert points[..i] == points;
    }
  }

  /** Once a prefix of the polygons raises, the later polygons add nothing. */
  lemma {:induction false} PolygonDocsStop(polys: seq<Coords>, props: Value, addFails: Record -> bool, i: nat)
    requires i <= |polys| && PolygonDocs(polys[..i], props, addFails).crashed
    ensures PolygonDocs(polys, props, addFails) == PolygonDocs(polys[..i], props, addFails)
    decreases |polys|
  {
    if i < |polys| {
      var n := |polys| - 1;
      assert polys[..n][..i] == polys[..i];
      PolygonDocsStop(polys[..n], props, addFails, i);
    } else {
      assert polys[..i] == polys;
    }
  }

  /** A single polygon's outcome. */
  lemma SinglePolygon(poly: Coords, props: Value, addFails: Record -> bool)
    ensures PolygonDocs([poly], props, addFails) ==
              match PolygonDoc(poly, props)
              case None => Outcome([], true)
              case Some(d) => if addFails(d) then Outcome([], true) else Outcome([d], false)
  {
    assert [poly][..0] == [];
  }

  /** The loop over the polygons of a multi-part geometry (each ring through the
      list comprehension), adding a document per polygon. */
  method AddPolygons(db: Firestore, polys: seq<Coords>, props: Value, addFails: Record -> bool)
    returns (added: nat, crashed: bool)
    modifies db
    ensures var o := PolygonDocs(polys, props, addFails);
            db.geofences == old(db.geofences) + o.docs && added == |o.docs| && crashed == o.crashed
  {
    added, crashed := 0, false;
    ghost var base := db.geofences;
    ghost var docs: seq<Record> := [];
    for j := 0 to |polys|
      invariant PolygonDocs(polys[..j], props, addFails) == Outcome(docs, false)
      invariant db.geofences == base + docs && added == |docs|
    {
      assert polys[..j + 1][..j] == polys[..j];
      var doc := PolygonDoc(polys[j], props);
      if doc.None? || addFails(doc.value) {
        PolygonDocsStop(polys, props, addFails, j + 1);
        crashed := true;
        return;
      }
      db.Add(doc.value);
      AppendAssoc(base, docs, [doc.value]);
      docs := docs + [doc.value];
      added := added + 1;
    }
    assert polys[..|polys|] == polys;
  }

  /** One pass of the feature loop. */
  method AddFeature(db: Firestore, f: Record, mapped: MapOracle, addFails: Record -> bool)
    returns (added: nat, crashed: bool)
    modifies db
    ensures var o := FeatureDocs(f, mapped, addFails);
            db.geofences == old(db.geofences) + o.docs && added == |o.docs| && crashed == o.crashed
  {
    var props := Get(f, "properties", Obj(map[]));
    var geom := Get(f, "geometry", Null);
    if !Truthy(geom) {
      return 0, false;
    }
    var m := mapped(geom);
    if m.None? {
      return 0, true;
    }
    var coords := m.value.coords;
    if m.value.kind == "Polygon" {
      SinglePolygon(coords, props, addFails);
      var rings := First(coords);
      if rings.None? {
        return 0, true;
      }
      var points, ok := RingToPoints(rings.value);
      if !ok || !props.Obj? {
        return 0, true;
      }
      var doc := GeofenceDoc(props.fields, points);
      if addFails(doc) {
        return 0, true;
      }
      db.Add(doc);
      added, crashed := 1, false;
    } else if coords.Tuple? {
      added, crashed := AddPolygons(db, coords.items, props, addFails);
    } else {
      return 0, true;
    }
  }

  /** ingest_geojson_to_firestore over the list of features: adds their documents in
      order and counts them, until an exception ends the script (`crashed`). */
  method IngestGeojsonToFirestore(db: Firestore, features: seq<Record>, mapped: MapOracle, addFails: Record -> bool)
    returns (count: nat, crashed: bool)
    modifies db
    ensures var o := Ingested(features, mapped, addFails);
            db.geofences == old(db.geofences) + o.docs && count == |o.docs| && crashed == o.crashed
  {
    count, crashed := 0, false;
    ghost var base := db.geofences;
    ghost var acc := Outcome([], false);
    for i := 0 to |features|
      invariant acc == Ingested(features[..i], mapped, addFails)
      invariant db.geofences == base + acc.docs && count == |acc.docs| && !acc.crashed
    {
      var stop;
      count, stop, acc := IngestFeature(db, features, mapped, addFails, i, base, acc, count);
      if stop {
        IngestedStops(features, mapped, addFails, i + 1);
        crashed := true;
        return;
      }
    }
    assert features[..|features|] == features;
  }

  /** One turn of the feature loop: feature i adds its documents after those of the
      features before it. */
  method IngestFeature(db: Firestore, features: seq<Record>, mapped: MapOracle, addFails: Record -> bool,
                       i: nat, ghost base: seq<Record>, ghost acc: Outcome, count: nat)
    returns (count': nat, stop: bool, ghost acc': Outcome)
    requires i < |features| && acc == Ingested(features[..i], mapped, addFails) && !acc.crashed
    requires db.geofences == base + acc.docs && count == |acc.docs|
    modifies db
    ensures acc' == Ingested(features[..i + 1], mapped, addFails)
    ensures db.geofences == base + acc'.docs && count' == |acc'.docs| && stop == acc'.crashed
  {
    IngestedStep(features, mapped, addFails, i);
    ghost var o := FeatureDocs(features[i], mapped, addFails);
    var added;
    added, stop := AddFeature(db, features[i], mapped, addFails);
    AppendAssoc(base, acc.docs, o.docs);
    acc' := Outcome(acc.docs + o.docs, o.crashed);
    count' := count + added;
  }

  lemma AppendAssoc(a: seq<Record>, b: seq<Record>, c: seq<Record>)
    ensures (a + b) + c == a + (b + c)
  {
  }

  /** One step of the feature loop. */
  lemma IngestedStep(features: seq<Record>, mapped: MapOracle, addFails: Record -> bool, i: nat)
    requires i < |features|
    ensures var before := Ingested(features[..i], mapped, addFails);
            var o := FeatureDocs(features[i], mapped, addFails);
            Ingested(features[..i + 1], mapped, addFails)
              == if before.crashed then before else Outcome(before.docs + o.docs, o.crashed)
  {
    assert features[..i + 1][..i] == features[..i];
    assert features[..i + 1][i] == features[i];
  }

  /** Once a prefix of the features raises, the later features add nothing. */
  lemma {:induction false} IngestedStops(features: seq<Record>, mapped: MapOracle, addFails: Record -> bool, i: nat)
    requires i <= |features| && Ingested(features[..i], mapped, addFails).crashed
    ensures Ingested(features, mapped, addFails) == Ingested(features[..i], mapped, addFails)
    decreases |features|
  {
    if i < |features| {
      var n := |features| - 1;
      assert features[..n][..i] == features[..i];
      IngestedStops(features[..n], mapped, addFails, i);
    } else {
      assert features[..i] == features;
    }
  }

  /** Every document for a polygon carries a truthy name, type "polygon",
      risk_level "high", active True, source "osm" and a point list. */
  lemma GeofenceDocFields(props: Record, points: seq<Value>)
    ensures IsGeofenceDoc(GeofenceDoc(props, points))
  {
  }

  lemma {:induction false} PolygonDocsAreGeofences(polys: seq<Coords>, props: Value, addFails: Record -> bool)
    ensures forall k :: 0 <= k < |PolygonDocs(polys, props, addFails).docs| ==>
              IsGeofenceDoc(PolygonDocs(polys, props, addFails).docs[k])
    decreases |polys|
  {
    if polys != [] {
      var n := |polys| - 1;
      PolygonDocsAreGeofences(polys[..n], props, addFails);
      var before := PolygonDocs(polys[..n], props, addFails);
      var docs := PolygonDocs(polys, props, addFails).docs;
      var d := PolygonDoc(polys[n], props);
      if !before.crashed && d.Some? && !addFails(d.value) {
        assert IsGeofenceDoc(d.value) by {
          GeofenceDocFields(props.fields, RingPoints(First(polys[n]).value).value);
        }
        assert docs == before.docs + [d.value];
        forall k | 0 <= k < |docs| ensures IsGeofenceDoc(docs[k]) {
          if k < |before.docs| {
            assert IsGeofenceDoc(before.docs[k]);
            assert docs[k] == before.docs[k];
          } else {
            assert docs[k] == d.value;
          }
        }
      } else {
        assert docs == before.docs;
        forall k | 0 <= k < |docs| ensures IsGeofenceDoc(docs[k]) {
          assert IsGeofenceDoc(before.docs[k]);
        }
      }
    }
  }

  lemma FeatureDocsAreGeofences(f: Record, mapped: MapOracle, addFails: Record -> bool)
    ensures forall k :: 0 <= k < |FeatureDocs(f, mapped, addFails).docs| ==>
              IsGeofenceDoc(FeatureDocs(f, mapped, addFails).docs[k])
  {
    var geom := Get(f, "geometry", Null);
    var props := Get(f, "properties", Obj(map[]));
    var docs := FeatureDocs(f, mapped, addFails).docs;
    if Truthy(geom) && mapped(geom).Some? {
      var m := mapped(geom).value;
      var polys := if m.kind == "Polygon" then [m.coords] else if m.coords.Tuple? then m.coords.items else [];
      if m.kind == "Polygon" || m.coords.Tuple? {
        assert docs == PolygonDocs(polys, props, addFails).docs;
        PolygonDocsAreGeofences(polys, props, addFails);
        forall k | 0 <= k < |docs| ensures IsGeofenceDoc(docs[k]) {
          assert IsGeofenceDoc(PolygonDocs(polys, props, addFails).docs[k]);
        }
      }
    }
  }

  /** Every document the import adds is a geofence document as above. */
  lemma {:induction false} IngestedAreGeofences(features: seq<Record>, mapped: MapOracle, addFails: Record -> bool)
    ensures forall k :: 0 <= k < |Ingested(features, mapped, addFails).docs| ==>
              IsGeofenceDoc(Ingested(features, mapped, addFails).docs[k])
    decreases |features|
  {
    if features != [] {
      var n := |features| - 1;
      IngestedAreGeofences(features[..n], mapped, addFails);
      var before := Ingested(features[..n], mapped, addFails);
      if !before.crashed {
        var fdocs := FeatureDocs(features[n], mapped, addFails).docs;
        FeatureDocsAreGeofences(features[n], mapped, addFails);
        GeofencesAppend(before.docs, fdocs);
      }
    }
  }

  lemma GeofencesAppend(a: seq<Record>, b: seq<Record>)
    requires forall k :: 0 <= k < |a| ==> IsGeofenceDoc(a[k])
    requires forall k :: 0 <= k < |b| ==> IsGeofenceDoc(b[k])
    ensures forall k :: 0 <= k < |a + b| ==> IsGeofenceDoc((a + b)[k])
  {
    forall k | 0 <= k < |a + b| ensures IsGeofenceDoc((a + b)[k]) {
      if k >= |a| {
        assert (a + b)[k] == b[k - |a|];
      }
    }
  }

  /** A "Polygon" feature whose exterior ring converts and whose properties are a
      dict yields exactly one document, holding the ring's points in ring order. */
  lemma PolygonFeatureOneDoc(f: Record, mapped: MapOracle, addFails: Record -> bool)
    requires Truthy(Get(f, "geometry", Null))
    requires mapped(Get(f, "geometry", Null)).Some? && mapped(Get(f, "geometry", Null)).value.kind == "Polygon"
    requires var coords := mapped(Get(f, "geometry", Null)).value.coords;
             First(coords).Some? && RingPoints(First(coords).value).Some?
    requires Get(f, "properties", Obj(map[])).Obj?
    ensures var coords := mapped(Get(f, "geometry", Null)).value.coords;
            var ring := First(coords).value;
            var doc := GeofenceDoc(Get(f, "properties", Obj(map[])).fields, RingPoints(ring).value);
            FeatureDocs(f, mapped, addFails) == (if addFails(doc) then Outcome([], true) else Outcome([doc], false))
            && |RingPoints(ring).value| == |ring.items|
            && forall i :: 0 <= i < |ring.items| ==>
                 PointRecord(ring.items[i]).Some? && RingPoints(ring).value[i] == PointRecord(ring.items[i]).value
  {
    var coords := mapped(Get(f, "geometry", Null)).value.coords;
    var props := Get(f, "properties", Obj(map[]));
    SinglePolygon(coords, props, addFails);
    assert PolygonDoc(coords, props) == Some(GeofenceDoc(props.fields, RingPoints(First(coords).value).value));
    assert FeatureDocs(f, mapped, addFails) == PolygonDocs([coords], props, addFails);
    PointRecordsMeaning(First(coords).value.items);
  }

  /** A feature of any other type whose polygons all convert, and whose documents
      all add, yields one document per polygon, in order, each from the polygon's
      exterior ring. */
  lemma MultiPolygonFeatureDocs(f: Record, mapped: MapOracle, addFails: Record -> bool)
    requires Truthy(Get(f, "geometry", Null))
    requires mapped(Get(f, "geometry", Null)).Some? && mapped(Get(f, "geometry", Null)).value.kind != "Polygon"
    requires mapped(Get(f, "geometry", Null)).value.coords.Tuple?
    requires var polys := mapped(Get(f, "geometry", Null)).value.coords.items;
             forall j :: 0 <= j < |polys| ==>
               PolygonDoc(polys[j], Get(f, "properties", Obj(map[]))).Some?
               && !addFails(PolygonDoc(polys[j], Get(f, "properties", Obj(map[]))).value)
    ensures var polys := mapped(Get(f, "geometry", Null)).value.coords.items;
            var o := FeatureDocs(f, mapped, addFails);
            !o.crashed && |o.docs| == |polys|
            && forall j :: 0 <= j < |polys| ==> o.docs[j] == PolygonDoc(polys[j], Get(f, "properties", Obj(map[]))).value
  {
    var polys := mapped(Get(f, "geometry", Null)).value.coords.items;
    AllPolygonsAdded(polys, Get(f, "properties", Obj(map[])), addFails);
  }

  lemma {:induction false} AllPolygonsAdded(polys: seq<Coords>, props: Value, addFails: Record -> bool)
    requires forall j :: 0 <= j < |polys| ==> PolygonDoc(polys[j], props).Some? && !addFails(PolygonDoc(polys[j], props).value)
    ensures var o := PolygonDocs(polys, props, addFails);
            !o.crashed && |o.docs| == |polys|
            && forall j :: 0 <= j < |polys| ==> o.docs[j] == PolygonDoc(polys[j], props).value
    decreases |polys|
  {
    if polys != [] {
      var n := |polys| - 1;
      var init := polys[..n];
      forall j | 0 <= j < n
        ensures PolygonDoc(init[j], props).Some? && !addFails(PolygonDoc(init[j], props).value)
      {
        assert init[j] == polys[j];
      }
      AllPolygonsAdded(init, props, addFails);
      var before := PolygonDocs(init, props, addFails);
      var d := PolygonDoc(polys[n], props).value;
      var docs := before.docs + [d];
      assert PolygonDocs(polys, props, addFails) == Outcome(docs, false);
      forall j | 0 <= j < |polys| ensures docs[j] == PolygonDoc(polys[j], props).value {
        if j < n {
          assert docs[j] == before.docs[j] && init[j] == polys[j];
        }
      }
    }
  }
}
