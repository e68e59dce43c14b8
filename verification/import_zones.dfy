/** The zone import (import_zones.py): read a JSON array of zones from a file and add
    every entry that has a latitude, a longitude, a radius and notes as a manual zone.
    The file system is not modelled: the file arrives as what `json.load` made of it. */
module ImportZones {
  import opened Common
  import opened Database

  const RequiredKeys: seq<string> := ["latitude", "longitude", "radius_m", "notes"]

  /** A zone as this script asks add_zone for it: the entry's own coordinates, radius
      and notes, with the default type and source "manual". */
  function EntryZone(entry: Record): ZoneArgs {
    ZoneArgs(Get(entry, "latitude", Null), Get(entry, "longitude", Null), Get(entry, "radius_m", Null),
             Get(entry, "notes", Str("")), Str("manual"), Str("manual"))
  }

  /** One pass of the import loop. An entry missing one of the keys is skipped; `in`
      on a number, a bool or null, `.get` on a list or a string that passed the key
      test, and add_zone raising (`writeFails`; the call is not guarded) end the
      script. */
  function ReadEntry(entry: Value, writeFails: Record -> bool): (r: EntryOutcome<ZoneArgs>)
    ensures r.Crash? <==> !(entry.Obj? || entry.Arr? || entry.Str?)
                          || (AllIn(RequiredKeys, entry) == Some(true)
                              && (!entry.Obj? || writeFails(ZoneOf(EntryZone(entry.fields)))))
    ensures r.Skip? <==> AllIn(RequiredKeys, entry) == Some(false)
    ensures r.Keep? ==> entry.Obj? && (forall i :: 0 <= i < |RequiredKeys| ==> RequiredKeys[i] in entry.fields)
                        && r.result == EntryZone(entry.fields) && !writeFails(ZoneOf(r.result))
  {
    match AllIn(RequiredKeys, entry)
    case None => Crash
    case Some(false) => Skip
    case Some(true) =>
      if !entry.Obj? then Crash
      else
        var a := EntryZone(entry.fields);
        if writeFails(ZoneOf(a)) then Crash else Keep(a)
  }

  function ReadWith(writeFails: Record -> bool): Value -> EntryOutcome<ZoneArgs> {
    e => ReadEntry(e, writeFails)
  }

  /** The entries the script reads: the file's array, or nothing when the file is
      missing, is not JSON or does not hold an array. */
  function Entries(file: JsonFile): seq<Value> {
    if file.Parsed? && file.json.Arr? then file.json.items else []
  }

  /** import_zones_from_file: adds one zone per complete entry on top of the existing
      zones, in file order, until an exception ends the script (`crashed`). */
  method ImportZonesFromFile(store: Store, file: JsonFile, writeFails: Record -> bool)
    returns (count: nat, crashed: bool, ghost keys: seq<string>)
    requires store.Valid()
    modifies store
    ensures store.Valid()
    ensures var planned := Run(Entries(file), ReadWith(writeFails));
            crashed == planned.crashed && count == |keys| == |planned.kept|
            && |Written(planned.kept, writeFails)| == |keys|
            && FreshKeys(old(store.zones), keys)
            && store.zones == Inserted(old(store.zones), keys, Written(planned.kept, writeFails))
    ensures store.admins == old(store.admins) && store.alerts == old(store.alerts)
            && store.touristPaths == old(store.touristPaths) && store.policeLocations == old(store.policeLocations)
  {
    count, crashed, keys := 0, false, [];
    var entries := Entries(file);
    if !(file.Parsed? && file.json.Arr?) {
      return;
    }
    ghost var base := store.zones;
    var read := ReadWith(writeFails);
    ghost var planned: seq<ZoneArgs> := [];
    for i := 0 to |entries|
      invariant Run(entries[..i], read) == Processed(planned, false)
      invariant count == |keys| == |planned| == |Written(planned, writeFails)|
      invariant FreshKeys(base, keys) && store.zones == Inserted(base, keys, Written(planned, writeFails))
      invariant store.Valid()
      invariant store.admins == old(store.admins) && store.alerts == old(store.alerts)
                && store.touristPaths == old(store.touristPaths) && store.policeLocations == old(store.policeLocations)
    {
      RunStep(entries, read, i);
      match read(entries[i]) {
        case Crash =>
          RunStops(entries, read, i + 1);
          crashed := true;
          return;
        case Skip =>
        case Keep(a) =>
          var added;
          added, keys := store.TryAddZone(a, writeFails, base, keys, planned);
          count := count + 1;
          planned := planned + [a];
      }
    }
    assert entries[..|entries|] == entries;
  }

  /** A zone written for one complete entry of `entries`. */
  predicate FromEntry(z: Record, entries: seq<Value>) {
    exists j :: 0 <= j < |entries| && entries[j].Obj? && z == ZoneOf(EntryZone(entries[j].fields))
  }

  /** Every zone the import writes is a manual zone whose coordinates, radius and
      description are those of one complete entry of the file; there are no more of
      them than entries. */
  lemma ImportedZonesComeFromEntries(file: JsonFile, writeFails: Record -> bool)
    ensures var written := Written(Run(Entries(file), ReadWith(writeFails)).kept, writeFails);
            |written| <= |Entries(file)|
            && forall k :: 0 <= k < |written| ==>
                 FromEntry(written[k], Entries(file))
                 && Get(written[k], "type", Null) == Str("manual") && Get(written[k], "source", Null) == Str("manual")
  {
    var entries := Entries(file);
    var planned := Run(entries, ReadWith(writeFails)).kept;
    KeptFromEntries(entries, writeFails);
    WrittenFrom(planned, writeFails);
    var written := Written(planned, writeFails);
    assert forall k :: 0 <= k < |written| ==> FromEntry(written[k], entries) by {
      forall k | 0 <= k < |written| ensures FromEntry(written[k], entries) {
        var i :| 0 <= i < |planned| && written[k] == ZoneOf(planned[i]);
      }
    }
    forall k | 0 <= k < |written|
      ensures Get(written[k], "type", Null) == Str("manual") && Get(written[k], "source", Null) == Str("manual")
    {
      var j :| 0 <= j < |entries| && entries[j].Obj? && written[k] == ZoneOf(EntryZone(entries[j].fields));
      EntryZoneIsManual(entries[j].fields);
    }
  }

  /** Each add_zone call the loop makes is built from one complete entry. */
  lemma KeptFromEntries(entries: seq<Value>, writeFails: Record -> bool)
    ensures var planned := Run(entries, ReadWith(writeFails)).kept;
            |planned| <= |entries| && forall i :: 0 <= i < |planned| ==> FromEntry(ZoneOf(planned[i]), entries)
  {
    var read := ReadWith(writeFails);
    var planned := Run(entries, read).kept;
    RunKeeps(entries, read);
    forall i | 0 <= i < |planned| ensures FromEntry(ZoneOf(planned[i]), entries) {
      var j :| 0 <= j < |entries| && read(entries[j]) == Keep(planned[i]);
    }
  }

  lemma EntryZoneIsManual(entry: Record)
    ensures Get(ZoneOf(EntryZone(entry)), "type", Null) == Str("manual")
    ensures Get(ZoneOf(EntryZone(entry)), "source", Null) == Str("manual")
  {
  }

  /** A file that is missing, is not JSON or is not an array adds nothing. */
  lemma NoArrayNoZones(file: JsonFile, writeFails: Record -> bool)
    requires !(file.Parsed? && file.json.Arr?)
    ensures Run(Entries(file), ReadWith(writeFails)) == Processed([], false)
  {
  }
}
