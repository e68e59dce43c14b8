# TouristApp safety logic in Dafny

TouristApp is a Flask service that watches tourists' phones. It keeps a list of danger zones in the
Firebase Realtime Database, fed by hand, by import scripts and by live feeds. On every location ping
it checks whether the tourist is approaching a danger zone, has entered one, or has left their
planned route. A scheduled job refreshes the live GDACS disaster alerts for India. A second job
raises an "inactivity" alert for every tourist who has not reported for more than five minutes. A
DBSCAN model over past disasters predicts zones likely to be hit again. Tourists log in with a demo
Aadhaar number and a one-time password.

This project models that decision logic, module by module:

| module | file | what it models |
|---|---|---|
| `Common` | common.dfy | JSON values as the Python code sees them; truthiness, `in`, subscripting, `str()`, `str.split()`; the shared "read one entry, skip / keep / raise" loop `Run` |
| `AnomalyDetection` | anomaly_detection.dfy | the `AnomalyDetector` class, `check_inactivity`, and the two first-match zone scans |
| `DisasterPrediction` | disaster_prediction.dfy | `DisasterPredictionModel`: training, the next-occurrence prediction and the cluster loop of `get_disaster_zones` |
| `Database` | database.dfy | the Realtime Database helpers over a `Store` class whose fields are the database nodes |
| `ExternalData` | external_data.dfy | the GDACS feed loop with its event-id extraction, and the Geoapify police feed loop |
| `Overpass` | overpass.dfy | `build_overpass_query`, which two scripts define identically |
| `UpdateOsmZones` | update_osm_zones.dfy | the OpenStreetMap zone import |
| `XyGeofences` | xy_geofences.dfy | the OpenStreetMap geofence import into Firestore |
| `FirestoreToRealtimeDbZones` | firestore_to_realtimedb_zones.dfy | the Firestore-to-Realtime-Database zone copy |
| `ImportZones`, `ImportPolice` | import_zones.dfy, import_police.dfy | the two JSON-file imports |
| `RemoveZonesByType` | remove_zones_by_type.dfy | the clean-up script |
| `App` | app.dfy | main.py's OTP login, `planned_path`, `check_anomaly`, `get_zones` and the two scheduled jobs |

State that the Python code changes in place is held in classes with `modifies` clauses:

- `Database.Store` holds the database nodes.
- `AnomalyDetection.AnomalyDetector` and `DisasterPrediction.DisasterPredictionModel` hold the two models.
- `App.Session` holds the signed-cookie session.
- `App.Application` holds main.py's module state and the database.
- `XyGeofences.Firestore` holds the Firestore collection.

Loops are methods with invariants. Each is proved against a function, and the properties the code
promises are proved about that function as lemmas.

Whatever the code delegates to a library or to the outside world is a parameter:

- the haversine distance;
- the isolation forest and DBSCAN labels;
- shapely's area, centroid and simplification, and the square root;
- `float()`, numpy's conversion of a string to a float, and `datetime.fromisoformat`;
- the random OTP draw and the clocks;
- whether a write fails, for the writes whose failure the code reacts to: add_zone and Firestore's
  add in the import scripts, the push of import_police, and the deletes of delete_zone_by_id,
  clear_zones_by_source and remove_zones_by_type.

Every other database read and write succeeds in the model (see "Left out").

A Python exception that the code does not catch is an explicit outcome. A request answers 500, or a
script or job stops with `crashed`.

## Model

| member | source | states |
|---|---|---|
| AnomalyDetection.AnomalyDetector.constructor | anomaly_detection.py:10-13 | a new detector is untrained and keeps the contamination it was given (default 0.1) |
| AnomalyDetection.AnomalyDetector.Train | anomaly_detection.py:15-26 | fewer than two waypoints leave the detector untrained even if it was trained before; two or more waypoints whose coordinates the scaler converts (numbers, bools, numeric strings) train it on exactly the converted points; any other waypoint raises and changes nothing |
| AnomalyDetection.AnomalyDetector.Predict | anomaly_detection.py:28-43 | an untrained detector never flags; the location is flagged exactly when the detector is trained, the scaler converts both coordinates (numeric strings included) and the forest labels the point -1, so every error answers false |
| AnomalyDetection.NumericStringsScale | anomaly_detection.py:24-38 | numeric-string coordinates are converted by the scaler and reach the forest, while the distance checks, which use Python's math, cannot measure any zone from them |
| AnomalyDetection.CheckInactivity | anomaly_detection.py:47-58 | no last timestamp gives (False, None); otherwise the elapsed time is always returned, and the user is inactive iff it strictly exceeds the threshold |
| AnomalyDetection.InactivityBoundary | anomaly_detection.py:55-58 | exactly five minutes of silence is not inactivity, and one microsecond more is |
| AnomalyDetection.InactivityPersists | anomaly_detection.py:57-58 | a user found inactive stays inactive at any later time |
| AnomalyDetection.Scan | anomaly_detection.py:77-82 | a hit is the first zone in list order that the test accepts, and every earlier zone was measured and rejected; no hit iff every zone was measured and rejected; a raise happens at a zone that cannot be measured after only rejections |
| AnomalyDetection.CheckDangerZoneEntry | anomaly_detection.py:73-82 | the zone returned is the first one whose radius/1000 is at least the distance (the boundary is inside); (False, None) iff every zone is measurable and outside |
| AnomalyDetection.CheckApproachingDangerZone | anomaly_detection.py:84-98 | the zone returned lies in the half-open band radius < distance <= radius + 1 km, so the location is not inside it; no hit iff every zone is measurable and outside its band |
| AnomalyDetection.ApproachAndEntryDiffer | anomaly_detection.py:92-97 | for one location, the zone reported as approached is never the zone reported as entered |
| AnomalyDetection.UnmeasurableFirstZoneRaises | anomaly_detection.py:77-79 | a list whose first zone lacks a key or a number makes both scans raise |
| DisasterPrediction.DisasterPredictionModel.constructor | disaster_prediction.py:9-13 | eps 0.3 and min_samples 2 by default; untrained, with no data |
| DisasterPrediction.DisasterPredictionModel.LoadHistoricalData | disaster_prediction.py:15-18 | replaces the events and leaves the fit as it was |
| DisasterPrediction.DisasterPredictionModel.Train | disaster_prediction.py:20-35 | trained iff there are events and at least min_samples of them; the labels are then DBSCAN's on the event locations, one per event and numbered without gaps, so every cluster position is an event; otherwise they stay as they were |
| DisasterPrediction.DisasterPredictionModel.GetDisasterZones | disaster_prediction.py:63-102 | an untrained model or no data gives []; otherwise it gives every cluster's zone in ascending label order (the order `set()` gives gap-free labels), or an IndexError exactly when a cluster position lies past the loaded events, which cannot happen while the labels are the ones trained on these events |
| DisasterPrediction.PredictNextOccurrence | disaster_prediction.py:37-61 | the loop-built prediction equals NextOccurrence of the cluster's times |
| DisasterPrediction.InsertPermutes | disaster_prediction.py:43 | inserting a time into the sorted list adds exactly that time |
| DisasterPrediction.InsertSorted | disaster_prediction.py:43 | inserting into a sorted list keeps it sorted, and the head is the smaller of the new time and the old head |
| DisasterPrediction.SortSorted | disaster_prediction.py:43 | the cluster's times are sorted chronologically |
| DisasterPrediction.SortPermutes | disaster_prediction.py:43 | sorting keeps exactly the same times (a permutation) |
| DisasterPrediction.GapsTelescope | disaster_prediction.py:46 | the consecutive gaps sum to the last time minus the first |
| DisasterPrediction.TimesOfDaySort | disaster_prediction.py:55 | the total of the seconds since midnight does not depend on the order of the events |
| DisasterPrediction.TimesOfDayBounds | disaster_prediction.py:55 | each event contributes between 0 and 86399 seconds since midnight |
| DisasterPrediction.SortedEnds | disaster_prediction.py:43-52 | the sorted times begin with the earliest event and end with the latest |
| DisasterPrediction.MeanGapIsSpan | disaster_prediction.py:45-48 | the mean consecutive gap is (last - first) / (n - 1), rounded to a microsecond |
| DisasterPrediction.ReplaceTimeOfDayParts | disaster_prediction.py:59 | replacing the time of day keeps the date and sets the second of the day |
| DisasterPrediction.MeanBelow | disaster_prediction.py:56-57 | the truncated mean of seconds since midnight is itself a valid second of the day |
| DisasterPrediction.PredictionDateAndTime | disaster_prediction.py:52-59 | the prediction falls on the date of (latest event + mean gap), at the truncated mean time of day of the events, whatever order the events were listed in |
| DisasterPrediction.MeanTimeOfDayIsValid | disaster_prediction.py:55-57 | the truncated mean of the events' seconds after midnight does not depend on their order and is a valid time of day (0 to 86399), so the replace() cannot fail |
| DisasterPrediction.TwoEventsAYearApart | disaster_prediction.py:45-59 | two events 365 days apart predict a third 365 days after the later one, at the same time of day |
| DisasterPrediction.IndicesSound | disaster_prediction.py:80 | np.where lists only positions holding the label, in ascending order |
| DisasterPrediction.IndicesComplete | disaster_prediction.py:80 | np.where lists every position holding the label |
| DisasterPrediction.MembersAgree | disaster_prediction.py:82-85 | a cluster's members depend only on the events at its positions |
| DisasterPrediction.MinLabel | disaster_prediction.py:72 | the smallest label occurs in the labels and bounds them from below |
| DisasterPrediction.MaxLabel | disaster_prediction.py:72 | the largest label occurs in the labels and bounds them from above |
| DisasterPrediction.RaisesExactly | disaster_prediction.py:80-85 | indexing a cluster's events raises exactly when one of its positions lies past the events |
| DisasterPrediction.LabelZones | disaster_prediction.py:76-101 | one label gives its zone (none for noise) or reports the IndexError |
| DisasterPrediction.ScannedStaysRaised | disaster_prediction.py:76-101 | once a label raises, the loop over more labels raises too |
| DisasterPrediction.ScannedMeaning | disaster_prediction.py:76-101 | the loop over a range of labels finishes iff no cluster position in it is out of range, and then yields those labels' zones in order |
| DisasterPrediction.CollectedMeaning | disaster_prediction.py:70-102 | the loop over all labels fails exactly when some cluster position is past the events, and otherwise yields every cluster's zone |
| DisasterPrediction.ScanLabel | disaster_prediction.py:76-101 | one turn of the label loop either appends this label's zones or propagates the raise |
| DisasterPrediction.CollectZones | disaster_prediction.py:76-101 | the imperative label loop computes the loop function over the label range |
| DisasterPrediction.ZonesBetweenFacts | disaster_prediction.py:88-94 | every zone for a label range has probability in [threshold, 1] and a prediction after now |
| DisasterPrediction.ZonesAreLikelyAndFuture | disaster_prediction.py:88-94 | no returned zone has a probability under the threshold or over 1, and none is predicted at or before now |
| DisasterPrediction.NoiseBetween | disaster_prediction.py:77-78 | the events at noise positions do not change the zones of a label range |
| DisasterPrediction.NoiseNeverContributes | disaster_prediction.py:76-78 | points labelled -1 never contribute: changing them changes no zone |
| DisasterPrediction.SumLatBounds | disaster_prediction.py:83 | the sum of n latitudes lies between n times their lower bound and n times their upper bound |
| DisasterPrediction.SumLngBounds | disaster_prediction.py:83 | the sum of n longitudes lies between n times their lower bound and n times their upper bound |
| DisasterPrediction.CentroidWithinMembers | disaster_prediction.py:82-83 | the zone centre is the per-axis mean of the members, so it lies in the box the members span |
| DisasterPrediction.ProbabilityScale | disaster_prediction.py:88-90 | probability is min(1, n/10); the default threshold 0.2 needs two events; ten or more give 1 |
| Database.DeletePlainKey | database.py:98-104 | deleting by a plain key removes that zone and nothing else, whether it existed or not |
| Database.DeleteEmptyId | database.py:98-104 | an empty id names the whole "zones" node, so every zone is deleted |
| Database.NewPushKey | database.py:95 | a push key is new to the node and names one child |
| Database.FindAdmin | database.py:63-70 | get_admin gives the first admin with that username in push order, and None iff there is none |
| Database.FindCreatedAdmin | database.py:53-70 | after create_admin under a new name, get_admin finds exactly the record it pushed |
| Database.Store.CreateAdmin | database.py:49-61 | a taken username gives None and no write; otherwise exactly one record with username and hash is appended and returned |
| Database.KeyOf | database.py:148 | the dict key of a user id: `True` and `1` (and `False` and `0`) are one key, and the key is truthy and hashable exactly when the id is |
| Database.FoldWellFormed | database.py:143-148 | the dict the loop builds has one entry per dict key it lists, with no repeated key |
| Database.FoldUsers | database.py:145-148 | the keys kept are exactly the dict keys of the truthy user ids among the locations, so `true` and `1` are one key |
| Database.FoldKeepsLast | database.py:148 | each key's record is the last location whose user id is that dict key (for ids `1` then `true`, the later location) |
| Database.GetLatestTouristLocations | database.py:136-150 | fails iff some child is not a dict or some truthy user id cannot be a dict key; otherwise gives the latest location of each dict key in insertion order |
| Database.LatestPerUser | database.py:141-150 | at most one record per dict key, each the last location whose user id is that key, and only truthy user ids count |
| Database.TrueAndOneAreOneUser | database.py:145-148 | locations with user ids `1` and then `true` give one latest location, the later one |
| Database.WrittenFrom | database.py:84-96 | every zone written comes from one of the add_zone calls, and there are no more of them than calls |
| Database.InsertedHolds | database.py:95 | after pushes under fresh keys, every old zone is unchanged, each pushed record sits under its own key, and there is nothing else |
| Database.InsertedStep | database.py:95 | one more push under a fresh key extends the pushes so far |
| Database.ReimportReplaces | database.py:106-123 | clearing a source tag and pushing new zones with that tag leaves exactly the new ones tagged, and keeps every other zone |
| Database.Store.constructor | database.py:39-47 | every node starts empty |
| Database.Store.GetAllZones | database.py:72-82 | lists each dict-valued zone exactly once, stamped with its key as "id", and nothing else; an empty or missing node gives [] |
| Database.Store.AddZone | database.py:84-96 | pushes one zone with lat, lng, radius, description, type and source (both 'manual' by default) under a new key and returns that key; no other node changes |
| Database.Store.TryAddZone | database.py:84-96 | a guarded add_zone call pushes the zone iff the write does not fail, and the pushes stay described by Inserted |
| Database.Store.DeleteZoneById | database.py:98-104 | True whenever the delete does not raise, whether or not the zone existed; the node at the id is then removed |
| Database.Store.ClearZonesBySource | database.py:106-123 | raises iff the query fails or the delete of some matching zone fails; the zones it deleted are matching dict zones and nothing else changes; a failed query deletes nothing, and a delete that fails leaves the zones deleted before it deleted; without a failure it deletes exactly the zones whose source equals the tag and returns how many |
| Database.Store.PushPoliceLocation | import_police.py:36 | a pushed police unit is appended unchanged |
| Database.Store.DeleteMatching | database.py:117-121 | the delete loop removes the matching zones one at a time; it raises iff some matching zone's delete fails, and then exactly the zones removed before it are gone, none of them one whose delete fails |
| Database.ReimportAfterPartialClear | database.py:106-123 | inserting tagged records after deleting some of the tagged zones leaves as tagged exactly the undeleted old ones and the new ones, and keeps every undeleted zone |
| Database.Store.LogAnomaly | database.py:162-171 | appends exactly one alert with the user id, type, details and the clock reading |
| Database.Store.SetPlannedPath | database.py:152-155 | stores the user's planned path under their id; a None path is refused by the SDK (it raises) and nothing is written |
| Database.RemoveInKeys | database.py:101 | a deletion never adds a key |
| Database.AddedZoneIsListed | database.py:72-96 | after add_zone the listing is the old listing plus the new zone stamped with its key |
| Database.ClearedLeavesNoTag | database.py:106-123 | after clear_zones_by_source no zone carries the tag, and every other zone is kept |
| ExternalData.IndexOf | external_data.py:51 | finds the first occurrence of the separator, and none iff it does not occur |
| ExternalData.FirstOccurrence | external_data.py:51 | an occurrence is the first one when nothing earlier can end a match |
| ExternalData.Guid | external_data.py:50-53 | a link without "eventid=" gives "unknown" |
| ExternalData.GuidOfLink | external_data.py:50-53 | for a link `...?eventid=<id>&...` whose part before the query has no '=', the guid is the id |
| ExternalData.FirstEventKey | external_data.py:51 | when the text before `eventid=` holds no '=', the first `eventid=` of the link is the one after that text, so split picks the id that follows it |
| ExternalData.EventIdOfQuery | external_data.py:51 | the text after "eventid=" is cut at the first '&' |
| ExternalData.ReadItem | external_data.py:35-62 | only Indian items with a point can give a zone, and every zone has an "ext_gdacs_" id, radius 50000, type "external" and the title as description; other items are skipped |
| ExternalData.FetchLiveIncidentData | external_data.py:7-72 | a request or parse failure gives []; otherwise the loop's zones in feed order, or a raise from a malformed Indian item |
| ExternalData.AlertZonesFacts | external_data.py:35-62 | the fetch raises iff some Indian item is malformed; otherwise every zone is an alert zone from an Indian item, with at most one zone per item |
| ExternalData.ForeignItemsIgnored | external_data.py:37-38 | a feed without Indian items gives [] and never raises |
| ExternalData.ReadFeature | external_data.py:90-100 | every unit kept has a truthy name, lat and lon and a "geoapify_" id; a feature or properties value that is not a dict raises |
| ExternalData.FetchPoliceLocationsFromApi | external_data.py:74-110 | no API key, a failed request or a body that is not JSON gives []; otherwise the loop's units, or [] when any exception is caught |
| ExternalData.PoliceUnitsFacts | external_data.py:90-110 | one malformed feature empties the answer; otherwise every unit has a name and coordinates |
| Overpass.BuildOverpassQuery | update_osm_zones.py:25-32 | the query is the header, one line per tag in input order, then the footer; no tags give header + footer |
| Overpass.TagLinesAppend | update_osm_zones.py:29-30 | the lines of two tag lists are the lines of the first followed by those of the second |
| Overpass.TagLineInOrder | update_osm_zones.py:29-30 | tag i's line "  <tag>(<bbox>);\n" comes right after the lines of the tags before it |
| Overpass.SplitJoin | update_osm_zones.py:27 | splitting a comma-joined list at its commas gives the parts back |
| Overpass.BboxStringSplits | update_osm_zones.py:27 | the bbox string holds the four components, comma-joined in the order given |
| UpdateOsmZones.GetCentroidAndRadius | update_osm_zones.py:34-51 | a zero-area geometry gives (None, None); otherwise the centroid and the radius of the circle with the same area at 111 km per degree |
| UpdateOsmZones.ReadFeature | update_osm_zones.py:83-99 | features without a geometry, with zero area or with a radius under 50 m are skipped; a kept feature gives an 'osm_imported' zone tagged 'osm' |
| UpdateOsmZones.ImportOsmZones | update_osm_zones.py:58-114 | clears the 'osm' zones, and when the clear raises goes on next to the 'osm' zones it did not reach; then pushes one zone per kept feature; the count grows only when add_zone does not raise; a failed Overpass request adds nothing |
| UpdateOsmZones.ImportFeature | update_osm_zones.py:83-112 | one pass of the feature loop extends the planned zones exactly as Run does for that feature, writes the zone unless add_zone raises, counts only written zones, and leaves every other node alone |
| UpdateOsmZones.WrittenZonesAreOsm | update_osm_zones.py:101-110 | every zone written is an 'osm_imported' zone tagged 'osm' and at least 50 m wide, and there are no more zones than features |
| UpdateOsmZones.OsmCallWritesOsmZone | update_osm_zones.py:102-109 | the add_zone call of a kept feature writes an OSM zone |
| UpdateOsmZones.ImportAfterFailedClear | update_osm_zones.py:58-63 | when the clear raised part way, after the import the zones tagged 'osm' are the new ones plus the old ones the clear did not reach, and every zone it did not delete is untouched |
| UpdateOsmZones.ImportReplacesOsmZones | update_osm_zones.py:58-112 | when the clear succeeds, after the import the zones tagged 'osm' are exactly the new ones, and zones from other sources are untouched |
| XyGeofences.PointRecords | xy.py:64-65 | a ring that converts gives one record per point |
| XyGeofences.PointRecordsMeaning | xy.py:64-81 | point i becomes {"lat": lat, "lon": lon} in ring order, and one bad point loses the ring |
| XyGeofences.NameOf | xy.py:67-83 | the name falls back name, then ref, then "OSM geofence", and is always truthy |
| XyGeofences.PolygonDoc | xy.py:80-90 | a polygon's document holds its exterior ring's points and the feature's properties |
| XyGeofences.PolygonDocs | xy.py:79-92 | the polygons give at most one document each |
| XyGeofences.FeatureDocs | xy.py:52-54 | a feature without a geometry adds no document |
| XyGeofences.Firestore.constructor | xy.py:48 | the collection starts empty |
| XyGeofences.Firestore.Add | xy.py:75-91 | `coll.add` appends exactly the document |
| XyGeofences.RingToPoints | xy.py:63-65 | the exterior-ring loop computes the ring's records, and fails iff a point raises |
| XyGeofences.PointRecordsStop | xy.py:64-65 | once a point raises, the ring fails |
| XyGeofences.PolygonDocsStop | xy.py:79-92 | once a polygon raises, later polygons add nothing |
| XyGeofences.SinglePolygon | xy.py:79-92 | one polygon adds its document unless building or adding it raises |
| XyGeofences.AddPolygons | xy.py:79-92 | the multi-polygon loop adds the documents of PolygonDocs and counts them |
| XyGeofences.AddFeature | xy.py:51-92 | one feature adds the documents of FeatureDocs and counts them |
| XyGeofences.IngestGeojsonToFirestore | xy.py:47-93 | adds the features' documents in order, and the count equals the number of documents added |
| XyGeofences.IngestFeature | xy.py:50-92 | one pass of the feature loop appends that feature's documents after those of the earlier features and keeps the count equal to the documents added |
| XyGeofences.IngestedStep | xy.py:50-92 | one more feature appends its documents unless an earlier feature raised |
| XyGeofences.IngestedStops | xy.py:50-92 | once a feature raises, the later features add nothing |
| XyGeofences.GeofenceDocFields | xy.py:66-74 | a document has a truthy name, type "polygon", risk_level "high", active True, source "osm" and a point list |
| XyGeofences.PolygonDocsAreGeofences | xy.py:79-92 | every multi-polygon document has those fields |
| XyGeofences.FeatureDocsAreGeofences | xy.py:52-92 | every document of a feature has those fields |
| XyGeofences.IngestedAreGeofences | xy.py:47-93 | every document the import adds has those fields |
| XyGeofences.PolygonFeatureOneDoc | xy.py:62-76 | a "Polygon" feature yields exactly one document, with the exterior ring's points in ring order |
| XyGeofences.MultiPolygonFeatureDocs | xy.py:77-92 | any other geometry type yields one document per polygon, in order, each from that polygon's exterior ring |
| XyGeofences.AllPolygonsAdded | xy.py:79-92 | polygons that all convert and add give one document each, in order |
| Common.Pairs | firestore_to_realtimedb_zones.py:57 | a list of points that converts gives one pair per point |
| Common.PairsMeaning | firestore_to_realtimedb_zones.py:56-60 | item i becomes (p[first], p[second]) in order, and one item without the keys loses the whole list |
| FirestoreToRealtimeDbZones.GetCentroidAndRadius | firestore_to_realtimedb_zones.py:6-28 | fewer than three points, a zero area or a radius under 50 m give (None, None); otherwise the centroid and the same-area radius at 111.1 km per degree |
| FirestoreToRealtimeDbZones.ReadDocument | firestore_to_realtimedb_zones.py:48-78 | a missing, non-list or shorter-than-3 polygon is skipped, and so is one with a point lacking "lon" or "lat"; a kept document gives a 'firestore_imported' zone |
| FirestoreToRealtimeDbZones.CopyZones | firestore_to_realtimedb_zones.py:30-84 | clears the 'firestore_import' zones and returns how many it cleared, then pushes one zone per kept document; the count grows only when add_zone does not raise; a clear that raises ends the script before any copy, with the zones it reached deleted |
| FirestoreToRealtimeDbZones.WrittenZonesAreCopies | firestore_to_realtimedb_zones.py:67-79 | every zone written is a 'firestore_imported' zone tagged 'firestore_import', at least 50 m wide, described "Imported from Firestore: ..." |
| FirestoreToRealtimeDbZones.CopyCallWritesCopiedZone | firestore_to_realtimedb_zones.py:71-78 | the add_zone call of a kept document writes a copied zone |
| FirestoreToRealtimeDbZones.CopyReplacesEarlierCopies | firestore_to_realtimedb_zones.py:38-79 | when the clear succeeds, after the copy the zones tagged 'firestore_import' are exactly the new ones, and other zones are untouched |
| ImportZones.ReadEntry | import_zones.py:34-46 | an entry is added iff it has latitude, longitude, radius_m and notes; the keys are renamed to lat, lng, radius and description |
| ImportZones.ImportZonesFromFile | import_zones.py:12-48 | adds one zone per complete entry in file order, and the count equals the number added |
| ImportZones.ImportedZonesComeFromEntries | import_zones.py:33-48 | every zone written is a 'manual' zone built from one complete entry of the file |
| ImportZones.KeptFromEntries | import_zones.py:34-44 | every add_zone call is built from one complete entry |
| ImportZones.EntryZoneIsManual | import_zones.py:38-43 | type and source default to 'manual' |
| ImportZones.NoArrayNoZones | import_zones.py:16-29 | a missing file, invalid JSON or a non-list top level adds nothing |
| ImportPolice.ReadUnit | import_police.py:34-38 | a unit is pushed iff it has latitude, longitude and unit_name and the push does not fail, and it is pushed unchanged; it is skipped iff a key is missing; the script ends iff `in` raises, or a unit with the keys is not a dict or its push fails |
| ImportPolice.ImportPoliceData | import_police.py:11-41 | appends the complete units in file order, and the count equals the number pushed; no other node changes |
| ImportPolice.PushedUnitsAreComplete | import_police.py:15-41 | every unit pushed is a complete unit of the file; the import stops early exactly when a unit raises |
| ImportPolice.CompleteFilePushesEverything | import_police.py:32-38 | a file of complete units is pushed entirely, in order |
| RemoveZonesByType.OfTypeMembers | remove_zones_by_type.py:16-19 | the selection keeps exactly the listed zones whose type is the target |
| RemoveZonesByType.OfTypeDistinct | remove_zones_by_type.py:16-19 | zones with distinct ids stay distinct once selected |
| RemoveZonesByType.SelectionNamesTargets | remove_zones_by_type.py:8-19 | the selection from a listing names every zone of the target type exactly once, and nothing else |
| RemoveZonesByType.SelectOfType | remove_zones_by_type.py:14-19 | the selection loop computes the zones of the target type in listing order |
| RemoveZonesByType.RemoveZones | remove_zones_by_type.py:5-41 | deletes exactly the zones of the target type whose deletion succeeds, and counts them; zones of other types are never deleted |
| RemoveZonesByType.DeleteEach | remove_zones_by_type.py:27-40 | one delete per selected zone; the count is the number of deletions that succeeded, so it never exceeds the selection |
| RemoveZonesByType.NoTargetLeft | remove_zones_by_type.py:5-41 | with no failing delete, no zone of the target type is left, and every other zone is kept |
| App.AadhaarValid | main.py:105 | a value passes iff it is a string of twelve digits; a falsy value fails; Python raises only on a number, a bool, or a 12-item list or dict |
| App.OtpHasSixDigits | main.py:111 | the OTP drawn from 100000..999999 is six digits long |
| App.Session.constructor | main.py:102-131 | a fresh session holds no OTP, Aadhaar, login, user or id |
| App.Session.GetOtp | main.py:102-117 | 500 for a body that is not an object; 400 for an Aadhaar that is not twelve digits and 404 for one that is not a demo user, both before any OTP is stored; on 200 the session holds the new OTP and that Aadhaar |
| App.Session.VerifyOtp | main.py:119-131 | 500 for a body that is not an object; otherwise succeeds iff the request's aadhaar and otp equal the session's, missing ones included; success logs the tourist in as that Aadhaar and drops the OTP |
| App.Session.VerifyOtpChecked | main.py:119-131 | the corrected check: the same, but a success also needs an OTP to be pending |
| App.FreshSessionLogsInWithoutOtp | main.py:119-131 | as written, a fresh session accepts an empty request and logs in a user with no id |
| App.OtpReplayAfterLogin | main.py:119-131 | as written, after a proper login the same Aadhaar verifies again without any OTP |
| App.CheckedOtpIsSingleUse | main.py:111-131 | corrected, the issued OTP verifies once, and neither a replay without OTP nor the same OTP again verifies afterwards |
| App.CheckedOtpNeedsPendingOtp | main.py:124-129 | corrected, a login needs the pending OTP itself, and after a login nothing verifies until a new OTP is issued |
| App.TwoFields | main.py:266-269 | the request is rejected (400) iff it is falsy or lacks "lat" or "lng"; the location is read iff it is a dict with both keys |
| App.PathRequestOf | main.py:250-251 | the path is read iff the body is a dict with "path", and the request is rejected iff it is falsy or lacks "path" |
| App.PathPairs | main.py:253 | a list gives its items' (lat, lng) pairs; an empty string or dict gives none; anything else raises |
| App.Entries | main.py:277-286 | one response entry per alert |
| App.Logged | main.py:278-287 | one log record per alert |
| App.PingAlertsInOrder | main.py:273-287 | alerts come in the order approaching, entry, path deviation, each at most once; zone alerts carry distinct zones from the list; a deviation is reported iff the detector flags the location |
| App.PingOfInOrder | main.py:275-287 | the same ordering facts, for any outcomes of the two scans |
| App.AllClearMeansNothingFound | main.py:285-292 | the answer is "ok" iff no zone is approached or entered and the detector does not flag the location |
| App.ReplyMatchesLog | main.py:276-287 | the response lists the alerts in the order they were logged, each with the type it was logged under, and every log record carries the session's id |
| App.EntryType | main.py:277-286 | a response entry names its alert's type |
| App.AlertRecordFields | database.py:165-168 | a log record carries the type and user id it was given |
| App.ReplaceZAppend | main.py:308 | the 'Z' replacement works piece by piece |
| App.ReplaceZKeepsPlain | main.py:308 | a string without 'Z' is unchanged |
| App.TrailingZBecomesOffset | main.py:308 | a trailing 'Z' becomes "+00:00" |
| App.LastSeen | main.py:307-308 | a string timestamp is parsed after the 'Z' replacement; another falsy value means never seen |
| App.SweepLocation | main.py:305-313 | a timestamp that raises ends the sweep; a location is reported iff its silence exceeds five minutes, with its user and the silence in minutes |
| App.InactivityAlerts | main.py:311-312 | one alert per inactive location |
| App.InactivityAlertsAt | main.py:312 | alert k is the "inactivity" record of the k-th inactive location |
| App.SweepAlertsFacts | main.py:302-313 | every alert of a sweep is the inactivity alert of one latest location, and there are no more alerts than latest locations |
| App.KeptIsAlertFor | main.py:310-312 | a location found inactive logs its own inactivity alert |
| App.LiveDataAreAlertZones | main.py:298-300 | the snapshot only ever holds GDACS alert zones |
| App.Application.constructor | main.py:29-30 | the snapshot and the detector registry start empty |
| App.Application.GetZones | main.py:192-196 | the database listing followed by the external snapshot, in that order |
| App.Application.PlannedPath | main.py:243-257 | 400 without a session id or path; a null path answers 500 with nothing stored and the registry kept; otherwise the path is stored first; on success (waypoints the scaler converts, numeric strings included) only this user's detector is replaced, by a fresh one trained on the waypoints, and other users' detectors are unchanged; a path that cannot be read or trained on answers 500 and keeps the registry |
| App.Application.CheckAnomaly | main.py:259-292 | 400 without a session id or location; otherwise it checks the database listing followed by the snapshot, and the reply and the appended log are those of PingAlerts, whose deviation verdict is the user's detector converting the location as the scaler does |
| App.Application.ReportAlerts | main.py:273-292 | the imperative alert construction builds exactly PingAlerts' alerts, responding with them and logging each |
| App.Application.Report | main.py:277-287 | appending and logging one alert extends both lists by that alert |
| App.Application.ReportScan | main.py:275-283 | a zone scan that hit appends exactly one alert of its kind, with its zone, to the response and to the log; a scan that missed changes neither |
| App.Application.ReportDeviation | main.py:285-287 | the path-deviation alert is appended and logged exactly when the user has a detector and it flags the location |
| App.Application.ReportRest | main.py:280-292 | after both scans succeed, the response and log end with the entry and deviation alerts of PingOf, and the reply is 'ok' exactly when no alert was raised |
| App.Application.FetchExternalDangerZones | main.py:295-300 | the snapshot is replaced only by a non-empty fetch result; an empty result or a raise keeps the previous one |
| App.Application.CheckForAnomalies | main.py:302-313 | a child of "tourist_locations" that is not a dict, or a user id that cannot be a dict key, stops the job before any alert; otherwise it logs one "inactivity" alert per latest location (one per dict key) found inactive, up to a timestamp that raises |
| App.Application.Sweep | main.py:305-313 | the sweep loop logs the inactivity alerts of the locations it passes before any raise |

## Left out

- Flask routing, templates, redirects and JSON encoding are not modelled. A handler receives the request body and the session and answers with the status it decides.
- These routes and helpers are not modelled because they only forward to modelled helpers or render pages: admin_login, admin_logout, admin_map, add_zone, delete_zone, tourist_route, handle_tourist_location, get_tourist_locations, get_police_locations and get_disaster_zones in main.py. The same goes for add_tourist_location, get_planned_tourist_path and get_tourist_by_aadhaar in database.py.
- The blockchain, KYC and QR code code in main.py (load_contract, register_kyc_on_blockchain) is foreign-library and network work.
- The APScheduler wiring and the server start are not modelled. Each scheduled job is a method that runs once.
- These are parameters and are never computed:
  - HTTP requests, the XML parser, the JSON decoder, osm2geojson and the Firebase and Firestore clients;
  - haversine's trigonometry;
  - IsolationForest, StandardScaler and DBSCAN;
  - shapely's area, centroid, simplify and mapping;
  - the square root, `float()`, numpy's string-to-float conversion and `datetime.fromisoformat`;
  - the random OTP draw, `uuid4` and the clocks.
- Floating point is exact real arithmetic here. Distances, radii, centroids and probabilities are `real`.
- Times are integer microseconds, and the disaster events' dates arrive as whole seconds; `strptime` is not modelled.
- Database.Store.GetAllZones: the listing order is left open. The Realtime Database's child order is not modelled, so get_zones and check_anomaly hold for every listing.
- update_osm_zones.py calls `database.init_firebase`, which database.py does not define. The model of that script starts after the call.
- initialize_database and the module-level Firebase initialisation in database.py are not modelled. The store starts empty.
- Firebase's dropping of null values, and the node being '' rather than a dict, are not modelled. An empty map stands for both.
- Database.Store.LogAnomaly: the push never fails. In the source a failure makes check_anomaly answer 500 and stops check_for_anomalies.
- Database.Store.LogAnomaly: takes the clock reading as a parameter, and App.Application.CheckAnomaly and App.Application.CheckForAnomalies pass one reading per request or sweep, while database.py:169 reads `time.time()` at each push.
- Database.Store.CreateAdmin: the read of the admins node and the push never fail.
- Database.Store.SetPlannedPath: only the refusal of a None path is modelled; a network failure of the set is not.
- Database.Store.GetAllZones: the read never fails. In the source a failure makes get_zones and check_anomaly answer 500.
- DisasterPrediction.PredictNextOccurrence: times are unbounded integers, so the OverflowError that `datetime` raises past the year 9999 is not modelled.
- A request body that is not JSON at all is not modelled; the handlers receive a JSON value. A value that is not an object makes the OTP handlers answer 500.
- App.Application.CheckForAnomalies: reads one `now` for the whole sweep, while the source reads the clock once per location. The naive/aware distinction of datetimes is folded into the parser oracle.
- DisasterPrediction.PredictNextOccurrence: the mean gap is rounded exactly, half to even, to a microsecond. numpy's floating mean is not reproduced bit for bit.
- DisasterPrediction.PredictNextOccurrence: writing the parsed 'datetime' back into the shared event dicts is not modelled, because nothing modelled reads it.
- DisasterPrediction.DisasterPredictionModel.LoadHistoricalData: events arrive as typed records, so a record missing 'place', 'lat', 'date' or 'time' (a KeyError in the source) is not modelled.
- ExternalData.FetchPoliceLocationsFromApi: the request URL built from the bbox is not modelled; the response is a parameter.
- `str.isdigit` and `str.split` are ASCII-only. Non-ASCII digits and whitespace are not modelled.
- Python's number/bool equality (`True == 1`) is not modelled when comparing request values with session values; values compare as JSON values. The dict of latest locations does follow it (Database.KeyOf).
- The print and logging output of every script is not modelled.
- Coordinates beyond two per point (GeoJSON's optional third) are not modelled. An unpacking into `lon, lat` of such a point raises, as in the source.

## Findings

| source | as written | input that shows it | evidently intended | confidence | as-written member | corrected member |
|---|---|---|---|---|---|---|
| main.py:124-129 | verify_otp compares the request's aadhaar and otp with `session.get(...)`, which is None when absent, and pops only the otp on success | a fresh session with the request body `{}`; or, after a successful login, `{"aadhaar": <same number>}` with no otp | a login needs an OTP that get_otp issued and that has not been used | not executed | App.FreshSessionLogsInWithoutOtp, App.OtpReplayAfterLogin (over App.Session.VerifyOtp) | App.Session.VerifyOtpChecked, with App.CheckedOtpIsSingleUse and App.CheckedOtpNeedsPendingOtp |
