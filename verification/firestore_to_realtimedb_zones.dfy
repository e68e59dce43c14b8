/** The Firestore-to-Realtime-Database copy (firestore_to_realtimedb_zones.py): clear
    the zones tagged "firestore_import", then turn every geofence document with a
    usable polygon into a circular zone. Firestore is not modelled: the documents
    arrive as records, and shapely's polygon area and centroid come from an oracle. */
module FirestoreToRealtimeDbZones {
  import opened Common
  import opened Database

  const SourceTag: string := "firestore_import"
  const MetresPerDegree: real := 111100.0
  const MinRadius: real := 50.0

  /** `Polygon(points)` as shapely builds it from (x, y) pairs: None when it raises. */
  type PolygonOracle = seq<(Value, Value)> -> Option<Shape>

  /** What get_centroid_and_radius gives: an exception, (None, None), or a centroid
      and a radius. */
  datatype Fit = Raises | NoFit | Fit(x: real, y: real, radius: real)

  /** get_centroid_and_radius: a guard chain. Fewer than three points, a zero area or
      a radius under 50 m give no zone; otherwise the centroid and the radius of the
      circle of the same area at 111.1 km per degree. */
  function GetCentroidAndRadius(points: seq<(Value, Value)>, polygonOf: PolygonOracle, sqrt: Sqrt): (r: Fit)
    ensures |points| < 3 ==> r.NoFit?
    ensures r.Raises? <==> |points| >= 3 && polygonOf(points).None?
    ensures |points| >= 3 && polygonOf(points).Some? && polygonOf(points).value.area == 0.0 ==> r.NoFit?
    ensures r.Fit? ==> |points| >= 3 && polygonOf(points).Some?
                       && r.x == polygonOf(points).value.x && r.y == polygonOf(points).value.y
                       && r.radius >= MinRadius
                       && r.radius == sqrt(polygonOf(points).value.area * (MetresPerDegree * MetresPerDegree) / 3.14159)
  {
    if |points| < 3 then NoFit
    else match polygonOf(points)
      case None => Raises
      case Some(s) =>
        if s.area == 0.0 then NoFit
        else
          var radius := sqrt(s.area * (MetresPerDegree * MetresPerDegree) / 3.14159);
          if radius < MinRadius then NoFit else Fit(s.x, s.y, radius)
  }

  predicate IsCopyCall(a: ZoneArgs) {
    a.zoneType == Str("firestore_imported") && a.source == Str(SourceTag)
    && a.description.Str? && "Imported from Firestore: " <= a.description.s
    && a.radius.Num? && a.radius.n >= MinRadius
  }

  /** One pass of the copy loop over a document's fields. */
  function ReadDocument(doc: Record, polygonOf: PolygonOracle, sqrt: Sqrt, repr: Value -> string)
    : (r: EntryOutcome<ZoneArgs>)
    ensures r.Keep? ==> IsCopyCall(r.result)
    ensures var polygon := Get(doc, "polygon", Null);
            !Truthy(polygon) || !polygon.Arr? || |polygon.items| < 3 ==> r.Skip?
    ensures var polygon := Get(doc, "polygon", Null);
            polygon.Arr? && Pairs(polygon.items, "lon", "lat").None? ==> r.Skip?
  {
    var polygon := Get(doc, "polygon", Null);
    if !Truthy(polygon) || !polygon.Arr? || |polygon.items| < 3 then Skip
    else match Pairs(polygon.items, "lon", "lat")
      case None => Skip
      case Some(points) =>
        match GetCentroidAndRadius(points, polygonOf, sqrt)
        case Raises => Crash
        case NoFit => Skip
        case Fit(x, y, radius) =>
          var name := Get(doc, "name", Str("Unnamed Zone from Firestore"));
          Keep(ZoneArgs(Num(y), Num(x), Num(radius), Str("Imported from Firestore: " + PyStr(name, repr)),
                        Str("firestore_imported"), Str(SourceTag)))
  }

  function ReadWith(polygonOf: PolygonOracle, sqrt: Sqrt, repr: Value -> string): Record -> EntryOutcome<ZoneArgs> {
    d => ReadDocument(d, polygonOf, sqrt, repr)
  }

  /** main: clears the earlier copies, then adds one zone per usable document.
      The clear is not guarded: when it raises, the script ends before any copy,
      with the zones the clear reached already deleted (`deleted`). `writeFails`
      says which add_zone calls raise (reported, not counted); `crashed` reports an
      exception that ends the script (the clear, or shapely). */
  method CopyZones(store: Store, clearFaults: ClearFaults, docs: seq<Record>, polygonOf: PolygonOracle, sqrt: Sqrt,
                   repr: Value -> string, writeFails: Record -> bool)
    returns (cleared: nat, count: nat, crashed: bool, ghost keys: seq<string>, ghost deleted: set<string>)
    requires store.Valid()
    modifies store
    ensures store.Valid()
    ensures deleted <= SourceKeys(old(store.zones), SourceTag)
    ensures clearFaults.queryFails ==> deleted == {}
    ensures !ClearSucceeds(old(store.zones), SourceTag, clearFaults) ==>
              crashed && count == 0 && keys == [] && store.zones == Without(old(store.zones), deleted)
    ensures ClearSucceeds(old(store.zones), SourceTag, clearFaults) ==>
              deleted == SourceKeys(old(store.zones), SourceTag) && cleared == |deleted|
              && var planned := Run(docs, ReadWith(polygonOf, sqrt, repr));
                 var written := Written(planned.kept, writeFails);
                 crashed == planned.crashed && count == |keys| == |written|
                 && FreshKeys(WithoutSource(old(store.zones), SourceTag), keys)
                 && store.zones == Inserted(WithoutSource(old(store.zones), SourceTag), keys, written)
    ensures store.admins == old(store.admins) && store.alerts == old(store.alerts)
            && store.touristPaths == old(store.touristPaths) && store.policeLocations == old(store.policeLocations)
  {
    var clearRaised;
    cleared, clearRaised, deleted := store.ClearZonesBySource(SourceTag, clearFaults);
    count, crashed, keys := 0, false, [];
    if clearRaised {
      crashed := true;
      return;
    }
    ghost var base := store.zones;
    var read := ReadWith(polygonOf, sqrt, repr);
    ghost var planned: seq<ZoneArgs> := [];
    for i := 0 to |docs|
      invariant Run(docs[..i], read) == Processed(planned, false)
      invariant count == |keys| == |Written(planned, writeFails)|
      invariant FreshKeys(base, keys) && store.zones == Inserted(base, keys, Written(planned, writeFails))
      invariant store.Valid()
      invariant store.admins == old(store.admins) && store.alerts == old(store.alerts)
                && store.touristPaths == old(store.touristPaths) && store.policeLocations == old(store.policeLocations)
    {
      RunStep(docs, read, i);
      match read(docs[i]) {
        case Crash =>
          RunStops(docs, read, i + 1);
          crashed := true;
          return;
        case Skip =>
        case Keep(a) =>
          var added;
          added, keys := store.TryAddZone(a, writeFails, base, keys, planned);
          if added {
            count := count + 1;
          }
          planned := planned + [a];
      }
    }
    assert docs[..|docs|] == docs;
  }

  /** A zone as this script writes it. */
  predicate IsCopiedZone(z: Record) {
    Get(z, "type", Null) == Str("firestore_imported") && HasSource(Obj(z), SourceTag)
    && Get(z, "radius", Null).Num? && Get(z, "radius", Null).n >= MinRadius
  }

  /** Every zone the copy writes is a "firestore_imported" zone tagged
      "firestore_import", at least 50 m wide; there are no more of them than
      documents. */
  lemma WrittenZonesAreCopies(docs: seq<Record>, polygonOf: PolygonOracle, sqrt: Sqrt, repr: Value -> string,
                              writeFails: Record -> bool)
    ensures var written := Written(Run(docs, ReadWith(polygonOf, sqrt, repr)).kept, writeFails);
            |written| <= |docs| && forall k :: 0 <= k < |written| ==> IsCopiedZone(written[k])
  {
    var read := ReadWith(polygonOf, sqrt, repr);
    var planned := Run(docs, read).kept;
    RunKeeps(docs, read);
    WrittenFrom(planned, writeFails);
    assert forall i :: 0 <= i < |planned| ==> IsCopyCall(planned[i]) by {
      forall i | 0 <= i < |planned| ensures IsCopyCall(planned[i]) {
        var j :| 0 <= j < |docs| && read(docs[j]) == Keep(planned[i]);
      }
    }
    forall k | 0 <= k < |Written(planned, writeFails)|
      ensures IsCopiedZone(Written(planned, writeFails)[k])
    {
      var i :| 0 <= i < |planned| && Written(planned, writeFails)[k] == ZoneOf(planned[i]);
      CopyCallWritesCopiedZone(planned[i]);
    }
  }

  lemma CopyCallWritesCopiedZone(a: ZoneArgs)
    requires IsCopyCall(a)
    ensures IsCopiedZone(ZoneOf(a))
  {
  }

  /** After the copy the zones tagged "firestore_import" are exactly the ones it
      wrote; zones from other sources are untouched. */
  lemma CopyReplacesEarlierCopies(zones: map<string, Value>, docs: seq<Record>, polygonOf: PolygonOracle,
                                  sqrt: Sqrt, repr: Value -> string, writeFails: Record -> bool, keys: seq<string>)
    requires var written := Written(Run(docs, ReadWith(polygonOf, sqrt, repr)).kept, writeFails);
             |keys| == |written| && FreshKeys(WithoutSource(zones, SourceTag), keys)
    ensures var after := Inserted(WithoutSource(zones, SourceTag),
                                  keys, Written(Run(docs, ReadWith(polygonOf, sqrt, repr)).kept, writeFails));
            (forall k :: k in SourceKeys(after, SourceTag) <==> k in keys)
            && forall k :: k in zones && !HasSource(zones[k], SourceTag) ==> k in after && after[k] == zones[k]
  {
    WrittenZonesAreCopies(docs, polygonOf, sqrt, repr, writeFails);
    ReimportReplaces(zones, SourceTag, keys, Written(Run(docs, ReadWith(polygonOf, sqrt, repr)).kept, writeFails));
  }
}
