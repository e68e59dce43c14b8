/** The per-user path-deviation detector, the inactivity test and the two first-match
    scans over the danger-zone list (anomaly_detection.py). */
module AnomalyDetection {
  import opened Common

  /** A (latitude, longitude) pair in decimal degrees, as the scaler receives it. */
  datatype Point = Point(lat: real, lng: real)

  /** Great-circle distance in km between (lat1, lon1) and (lat2, lon2): haversine's
      trigonometry is not part of the model, so every check receives it. */
  type Distance = (real, real, real, real) -> real

  /** The label IsolationForest (with the given contamination, fitted after
      StandardScaler on the given points) gives a point: Some(1) or Some(-1), or None
      when scikit-learn raises. */
  type OutlierOracle = (real, seq<Point>, Point) -> Option<int>

  /** The number StandardScaler's input check makes of a coordinate. It converts to
      float64 the way numpy does: a bool becomes 0 or 1 and a string goes through
      `toFloat`, numpy's string conversion, which is None when it raises or gives a
      value that is not finite. Anything else has no number: None becomes NaN, which
      the scaler lets through and the forest refuses with the same ValueError. */
  function ScaledNumber(v: Value, toFloat: FloatParser): Option<real> {
    match v
    case Str(s) => toFloat(s)
    case _ => AsNumber(v)
  }

  /** Both coordinates of a location are numbers the scaler accepts. */
  predicate IsNumericPair(p: (Value, Value), toFloat: FloatParser) {
    ScaledNumber(p.0, toFloat).Some? && ScaledNumber(p.1, toFloat).Some?
  }

  predicate AllNumeric(data: seq<(Value, Value)>, toFloat: FloatParser) {
    forall i :: 0 <= i < |data| ==> IsNumericPair(data[i], toFloat)
  }

  function ToPoint(p: (Value, Value), toFloat: FloatParser): Point
    requires IsNumericPair(p, toFloat)
  {
    Point(ScaledNumber(p.0, toFloat).value, ScaledNumber(p.1, toFloat).value)
  }

  function ToPoints(data: seq<(Value, Value)>, toFloat: FloatParser): (r: seq<Point>)
    requires AllNumeric(data, toFloat)
    ensures |r| == |data|
  {
    seq(|data|, i requires 0 <= i < |data| => ToPoint(data[i], toFloat))
  }

  /** A user's route model: untrained until it is given at least two waypoints. */
  class AnomalyDetector {
    const contamination: real
    var isTrained: bool
    /** The points the scaler and the forest were last fitted to. */
    var fitted: seq<Point>

    constructor (contamination: real := 0.1)
      ensures this.contamination == contamination
      ensures !isTrained && fitted == []
    {
      this.contamination := contamination;
      isTrained := false;
      fitted := [];
    }

    /** Fits the model to the planned waypoints. Fewer than two points leave it
        untrained, even if it was trained before; `raised` reports the ValueError
        the scaler throws on values that are not numbers. */
    method Train(data: seq<(Value, Value)>, toFloat: FloatParser) returns (raised: bool)
      modifies this
      ensures raised <==> |data| >= 2 && !AllNumeric(data, toFloat)
      ensures |data| < 2 ==> !isTrained && fitted == old(fitted)
      ensures !raised && |data| >= 2 ==> isTrained && fitted == ToPoints(data, toFloat)
      ensures raised ==> isTrained == old(isTrained) && fitted == old(fitted)
    {
      raised := false;
      if |data| < 2 {
        isTrained := false;
        return;
      }
      if !AllNumeric(data, toFloat) {
        raised := true;
        return;
      }
      fitted := ToPoints(data, toFloat);
      isTrained := true;
    }

    /** Is the location off the planned route? An untrained model, a location that is
        not numeric and any error of the forest all answer false. */
    method Predict(location: (Value, Value), forest: OutlierOracle, toFloat: FloatParser) returns (anomalous: bool)
      ensures !isTrained ==> !anomalous
      ensures anomalous <==>
                isTrained && IsNumericPair(location, toFloat)
                && forest(contamination, fitted, ToPoint(location, toFloat)) == Some(-1)
    {
      if !isTrained {
        return false;
      }
      if !IsNumericPair(location, toFloat) {
        return false;
      }
      var verdict := forest(contamination, fitted, ToPoint(location, toFloat));
      anomalous := verdict == Some(-1);
    }
  }

  const MicrosPerMinute: int := 60_000_000

  /** Inactivity test on timestamps in microseconds. With no last timestamp the user
      is not inactive and no elapsed time is given; otherwise the elapsed time is
      always returned and the user is inactive when it exceeds the threshold. */
  function CheckInactivity(last: Option<int>, now: int, thresholdMinutes: int := 5): (r: (bool, Option<int>))
    ensures last.None? ==> r == (false, None)
    ensures last.Some? ==> r.1 == Some(now - last.value)
    ensures last.Some? ==> (r.0 <==> now - last.value > thresholdMinutes * MicrosPerMinute)
  {
    if last.None? then (false, None)
    else
      var elapsed := now - last.value;
      (elapsed > thresholdMinutes * MicrosPerMinute, Some(elapsed))
  }

  /** Exactly five minutes of silence is not inactivity; one microsecond more is. */
  lemma InactivityBoundary(last: int)
    ensures !CheckInactivity(Some(last), last + 5 * MicrosPerMinute).0
    ensures CheckInactivity(Some(last), last + 5 * MicrosPerMinute + 1).0
  {
  }

  /** Once inactive, a user stays inactive as the clock advances. */
  lemma InactivityPersists(last: int, now: int, later: int, thresholdMinutes: int)
    requires now <= later
    requires CheckInactivity(Some(last), now, thresholdMinutes).0
    ensures CheckInactivity(Some(last), later, thresholdMinutes).0
  {
  }

  /** The distance from the location to the zone's centre and the zone's radius, both
      in km; None when Python raises (a missing key, or a value that is not a number). */
  function Measure(location: (Value, Value), zone: Record, dist: Distance): Option<(real, real)> {
    if "lat" in zone && "lng" in zone && "radius" in zone
       && AsNumber(location.0).Some? && AsNumber(location.1).Some?
       && AsNumber(zone["lat"]).Some? && AsNumber(zone["lng"]).Some?
       && AsNumber(zone["radius"]).Some?
    then
      var d := dist(AsNumber(location.0).value, AsNumber(location.1).value,
                    AsNumber(zone["lat"]).value, AsNumber(zone["lng"]).value);
      Some((d, AsNumber(zone["radius"]).value / 1000.0))
    else None
  }

  /** Coordinates sent as numeric strings reach the forest: the scaler converts them,
      while the distance checks, which go through Python's math, cannot measure any
      zone from them. */
  lemma NumericStringsScale(lat: string, lng: string, toFloat: FloatParser, zone: Record, dist: Distance)
    requires toFloat(lat).Some? && toFloat(lng).Some?
    ensures IsNumericPair((Str(lat), Str(lng)), toFloat)
    ensures ToPoint((Str(lat), Str(lng)), toFloat) == Point(toFloat(lat).value, toFloat(lng).value)
    ensures Measure((Str(lat), Str(lng)), zone, dist).None?
  {
  }

  /** The inclusive "inside" test: distance <= radius. */
  predicate IsInside(m: (real, real)) {
    m.0 <= m.1
  }

  /** The half-open "approaching" band: radius < distance <= radius + buffer. */
  predicate IsApproaching(m: (real, real), bufferKm: real) {
    m.0 <= m.1 + bufferKm && !IsInside(m)
  }

  /** The outcome of a scan: the first zone that matched, none, or an exception. */
  datatype ScanResult = Hit(zone: Record) | NoHit | Raised

  /** Every zone before position i was measured without error and did not match. */
  ghost predicate PassedOver(location: (Value, Value), zones: seq<Record>, dist: Distance,
                             accept: ((real, real)) -> bool, i: int)
    requires 0 <= i <= |zones|
  {
    forall j :: 0 <= j < i ==> Measure(location, zones[j], dist).Some? && !accept(Measure(location, zones[j], dist).value)
  }

  /** The first zone in list order that `accept` takes; the scan stops at the first
      zone Python cannot measure. */
  function Scan(location: (Value, Value), zones: seq<Record>, dist: Distance,
                accept: ((real, real)) -> bool): (r: ScanResult)
    ensures r.Hit? ==> exists i :: 0 <= i < |zones| && zones[i] == r.zone
                                   && PassedOver(location, zones, dist, accept, i)
                                   && Measure(location, zones[i], dist).Some?
                                   && accept(Measure(location, zones[i], dist).value)
    ensures r.NoHit? <==> PassedOver(location, zones, dist, accept, |zones|)
    ensures r.Raised? ==> exists i :: 0 <= i < |zones|
                                      && PassedOver(location, zones, dist, accept, i)
                                      && Measure(location, zones[i], dist).None?
    decreases |zones|
  {
    if zones == [] then NoHit
    else
      match Measure(location, zones[0], dist)
      case None => Raised
      case Some(m) =>
        if accept(m) then Hit(zones[0])
        else
          var rest := Scan(location, zones[1..], dist, accept);
          assert forall i :: 0 <= i <= |zones| - 1 ==>
            (PassedOver(location, zones[1..], dist, accept, i) <==> PassedOver(location, zones, dist, accept, i + 1));
          rest
  }

  /** check_danger_zone_entry: the first zone whose radius contains the location. */
  function CheckDangerZoneEntry(location: (Value, Value), zones: seq<Record>, dist: Distance): (r: ScanResult)
    ensures r.Hit? ==> r.zone in zones && Measure(location, r.zone, dist).Some?
                       && IsInside(Measure(location, r.zone, dist).value)
    ensures r.Hit? ==> exists i :: 0 <= i < |zones| && zones[i] == r.zone
                                   && PassedOver(location, zones, dist, IsInside, i)
    ensures r.NoHit? <==> forall j :: 0 <= j < |zones| ==>
                            Measure(location, zones[j], dist).Some? && !IsInside(Measure(location, zones[j], dist).value)
  {
    Scan(location, zones, dist, IsInside)
  }

  /** check_approaching_danger_zone: the first zone whose approach band holds the
      location; a zone the location is inside is passed over, not a stop. */
  function CheckApproachingDangerZone(location: (Value, Value), zones: seq<Record>, dist: Distance,
                                      approachingKm: real := 1.0): (r: ScanResult)
    ensures r.Hit? ==> r.zone in zones && Measure(location, r.zone, dist).Some?
                       && IsApproaching(Measure(location, r.zone, dist).value, approachingKm)
                       && !IsInside(Measure(location, r.zone, dist).value)
    ensures r.NoHit? <==> forall j :: 0 <= j < |zones| ==>
                            Measure(location, zones[j], dist).Some?
                            && !IsApproaching(Measure(location, zones[j], dist).value, approachingKm)
  {
    Scan(location, zones, dist, m => IsApproaching(m, approachingKm))
  }

  /** For one location the zone reported as approached is never the zone reported as
      entered. */
  lemma ApproachAndEntryDiffer(location: (Value, Value), zones: seq<Record>, dist: Distance, approachingKm: real)
    requires CheckApproachingDangerZone(location, zones, dist, approachingKm).Hit?
    requires CheckDangerZoneEntry(location, zones, dist).Hit?
    ensures CheckApproachingDangerZone(location, zones, dist, approachingKm).zone
            != CheckDangerZoneEntry(location, zones, dist).zone
  {
  }

  /** Both scans read the zones in the same order, so they fail on the same inputs
      when neither finds a zone first: a list whose first zone cannot be measured
      makes both raise. */
  lemma UnmeasurableFirstZoneRaises(location: (Value, Value), zones: seq<Record>, dist: Distance, approachingKm: real)
    requires zones != [] && Measure(location, zones[0], dist).None?
    ensures CheckDangerZoneEntry(location, zones, dist).Raised?
    ensures CheckApproachingDangerZone(location, zones, dist, approachingKm).Raised?
  {
  }
}
