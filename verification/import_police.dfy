/** The police import (import_police.py): read a JSON array of police units from a
    file and push, unchanged, every unit that has a latitude, a longitude and a unit
    name to the "police_locations" node. */
module ImportPolice {
  import opened Common
  import opened Database

  const RequiredKeys: seq<string> := ["latitude", "longitude", "unit_name"]

  /** A unit the script pushes: a dict holding the three keys. */
  predicate IsCompleteUnit(unit: Value) {
    unit.Obj? && "latitude" in unit.fields && "longitude" in unit.fields && "unit_name" in unit.fields
  }

  /** One pass of the import loop. A unit missing one of the keys is skipped; `in` on
      a number, a bool or null, `.get` on a list or a string that passed the key test,
      and the push raising (`pushFails`; the call is not guarded) end the script. */
  function ReadUnit(unit: Value, pushFails: Value -> bool): (r: EntryOutcome<Value>)
    ensures r.Keep? <==> IsCompleteUnit(unit) && !pushFails(unit)
    ensures r.Keep? ==> r.result == unit
    ensures r.Skip? <==> AllIn(RequiredKeys, unit) == Some(false)
    ensures r.Crash? <==> AllIn(RequiredKeys, unit).None?
                          || (AllIn(RequiredKeys, unit) == Some(true) && (!unit.Obj? || pushFails(unit)))
  {
    match AllIn(RequiredKeys, unit)
    case None => Crash
    case Some(false) => Skip
    case Some(true) =>
      assert unit.Obj? ==> PyIn(RequiredKeys[0], unit) == Some(true) && PyIn(RequiredKeys[1], unit) == Some(true)
                           && PyIn(RequiredKeys[2], unit) == Some(true);
      if !unit.Obj? || pushFails(unit) then Crash else Keep(unit)
  }

  function ReadWith(pushFails: Value -> bool): Value -> EntryOutcome<Value> {
    u => ReadUnit(u, pushFails)
  }

  /** The units the script reads: the file's array, or nothing when the file is
      missing, is not JSON or does not hold an array. */
  function Units(file: JsonFile): seq<Value> {
    if file.Parsed? && file.json.Arr? then file.json.items else []
  }

  /** import_police_data: appends the complete units in file order, until an
      exception ends the script (`crashed`); nothing else in the database changes. */
  method ImportPoliceData(store: Store, file: JsonFile, pushFails: Value -> bool) returns (count: nat, crashed: bool)
    modifies store
    ensures var pushed := Run(Units(file), ReadWith(pushFails));
            crashed == pushed.crashed && count == |pushed.kept|
            && store.policeLocations == old(store.policeLocations) + pushed.kept
    ensures store.zones == old(store.zones) && store.admins == old(store.admins) && store.alerts == old(store.alerts)
            && store.touristPaths == old(store.touristPaths)
  {
    count, crashed := 0, false;
    var units := Units(file);
    if !(file.Parsed? && file.json.Arr?) {
      return;
    }
    var read := ReadWith(pushFails);
    ghost var pushed: seq<Value> := [];
    for i := 0 to |units|
      invariant Run(units[..i], read) == Processed(pushed, false)
      invariant count == |pushed| && store.policeLocations == old(store.policeLocations) + pushed
      invariant store.zones == old(store.zones) && store.admins == old(store.admins) && store.alerts == old(store.alerts)
                && store.touristPaths == old(store.touristPaths)
    {
      RunStep(units, read, i);
      match read(units[i]) {
        case Crash =>
          RunStops(units, read, i + 1);
          crashed := true;
          return;
        case Skip =>
        case Keep(u) =>
          store.PushPoliceLocation(u);
          count := count + 1;
          pushed := pushed + [u];
      }
    }
    assert units[..|units|] == units;
  }

  /** Every pushed unit is one of the file's units, a dict holding the three keys,
      and there are no more of them than units; the import stops early exactly when
      some unit raises. */
  lemma PushedUnitsAreComplete(file: JsonFile, pushFails: Value -> bool)
    ensures var pushed := Run(Units(file), ReadWith(pushFails));
            |pushed.kept| <= |Units(file)|
            && (forall k :: 0 <= k < |pushed.kept| ==> IsCompleteUnit(pushed.kept[k]) && pushed.kept[k] in Units(file))
            && (pushed.crashed <==> exists i :: 0 <= i < |Units(file)| && ReadUnit(Units(file)[i], pushFails).Crash?)
  {
    var units := Units(file);
    var read := ReadWith(pushFails);
    RunKeeps(units, read);
    RunCrashes(units, read);
    var pushed := Run(units, read).kept;
    forall k | 0 <= k < |pushed| ensures IsCompleteUnit(pushed[k]) && pushed[k] in units {
      var j :| 0 <= j < |units| && read(units[j]) == Keep(pushed[k]);
    }
  }

  /** With no failing push, the import of a file of complete units pushes all of them,
      in order. */
  lemma CompleteFilePushesEverything(file: JsonFile, pushFails: Value -> bool)
    requires forall i :: 0 <= i < |Units(file)| ==> IsCompleteUnit(Units(file)[i]) && !pushFails(Units(file)[i])
    ensures Run(Units(file), ReadWith(pushFails)) == Processed(Units(file), false)
  {
    var units := Units(file);
    forall i | 0 <= i < |units| ensures ReadWith(pushFails)(units[i]) == Keep(units[i]) {
      assert ReadUnit(units[i], pushFails).Keep?;
    }
    RunKeepsAll(units, ReadWith(pushFails));
  }
}
