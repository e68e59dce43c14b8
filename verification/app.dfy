/** The Flask application (main.py), restricted to the handlers and jobs that decide
    something: the OTP login, the planned-path registration, the per-ping anomaly
    check, the zone listing, the job that refreshes the external zone snapshot and the
    inactivity sweep. Routing, templates and JSON encoding are not modelled: a handler
    receives the request body and the session, and answers with the status it decides.
    The random OTP, the clock, the distance function, the isolation forest and
    datetime.fromisoformat are parameters. */
module App {
  import opened Common
  import opened Database
  import opened AnomalyDetection
  import ExternalData

  // ---------------------------------------------------------------------------
  // Tourist login (get_otp, verify_otp)

  /** The Aadhaar numbers of the demo users. */
  const DummyUsers: set<string> := {"123456789012", "210987654321", "345678901234"}

  predicate IsDigit(c: char) {
    '0' <= c <= '9'
  }

  /** `aadhaar and len(aadhaar) == 12 and aadhaar.isdigit()`: None when Python raises
      (len() of a number or of True, isdigit() of a 12-item list or dict). */
  function AadhaarValid(v: Value): (r: Option<bool>)
    ensures r == Some(true) <==> v.Str? && |v.s| == 12 && forall i :: 0 <= i < 12 ==> IsDigit(v.s[i])
    ensures !Truthy(v) ==> r == Some(false)
    ensures r.None? ==> v.Num? || v.Bool? || (v.Arr? && |v.items| == 12) || (v.Obj? && |v.fields| == 12)
  {
    if !Truthy(v) then Some(false)
    else match v
      case Str(s) => Some(|s| == 12 && forall i :: 0 <= i < |s| ==> IsDigit(s[i]))
      case Arr(items) => if |items| == 12 then None else Some(false)
      case Obj(fields) => if |fields| == 12 then None else Some(false)
      case _ => None
  }

  /** The OTP get_otp issues: str() of a draw from 100000..999999 has six digits. */
  lemma OtpHasSixDigits(draw: int)
    requires 100000 <= draw <= 999999
    ensures |NatToString(draw)| == 6
  {
    var d1 := draw / 10;
    var d2 := d1 / 10;
    var d3 := d2 / 10;
    var d4 := d3 / 10;
    var d5 := d4 / 10;
    assert 1 <= d5 <= 9;
    assert |NatToString(d5)| == 1;
    assert |NatToString(d4)| == 2;
    assert |NatToString(d3)| == 3;
    assert |NatToString(d2)| == 4;
    assert |NatToString(d1)| == 5;
  }

  /** The test verify_otp applies to the values it reads (Null for a missing key):
      the request's aadhaar and otp equal the session's. */
  predicate OtpMatches(request: Record, sessionAadhaar: Value, sessionOtp: Value) {
    Get(request, "aadhaar", Null) == sessionAadhaar && Get(request, "otp", Null) == sessionOtp
  }

  /** The test verify_otp evidently means: the same comparison, but only while an OTP
      issued by get_otp is pending. */
  predicate OtpAccepted(request: Record, sessionAadhaar: Value, sessionOtp: Value) {
    sessionOtp != Null && OtpMatches(request, sessionAadhaar, sessionOtp)
  }

  /** The signed-cookie session of one browser; Null stands for a missing key. */
  class Session {
    var otp: Value
    var aadhaar: Value
    var touristLoggedIn: bool
    var userId: Value
    /** "_id", set by the tourist page; "" stands for a missing id (the handlers test
        it for truth, and both are false). */
    var id: string

    constructor ()
      ensures otp == Null && aadhaar == Null && !touristLoggedIn && userId == Null && id == ""
    {
      otp, aadhaar, touristLoggedIn, userId, id := Null, Null, false, Null, "";
    }

    /** get_otp: 400 for an Aadhaar that is not twelve digits, 404 for one that is not
        a demo user, and only then a new OTP in the session; `draw` is the random
        number. A body that is not a JSON object, or an aadhaar Python cannot
        validate, answers 500. */
    method GetOtp(body: Value, draw: int) returns (code: int)
      requires 100000 <= draw <= 999999
      modifies this
      ensures !body.Obj? ==> code == 500
      ensures body.Obj? ==>
                var a := Get(body.fields, "aadhaar", Null);
                (code == 400 <==> AadhaarValid(a) == Some(false))
                && (code == 404 <==> AadhaarValid(a) == Some(true) && a.s !in DummyUsers)
                && (code == 500 <==> AadhaarValid(a).None?)
                && (code == 200 <==> AadhaarValid(a) == Some(true) && a.s in DummyUsers)
      ensures code == 200 ==> otp == Str(NatToString(draw)) && aadhaar == Get(body.fields, "aadhaar", Null)
      ensures code != 200 ==> otp == old(otp) && aadhaar == old(aadhaar)
      ensures touristLoggedIn == old(touristLoggedIn) && userId == old(userId) && id == old(id)
    {
      if !body.Obj? {
        return 500;
      }
      var a := Get(body.fields, "aadhaar", Null);
      match AadhaarValid(a) {
        case None =>
          return 500;
        case Some(valid) =>
          if !valid {
            return 400;
          }
      }
      if a.s !in DummyUsers {
        return 404;
      }
      otp := Str(NatToString(draw));
      aadhaar := a;
      code := 200;
    }

    /** verify_otp as written: 200 when the request's aadhaar and otp equal the
        session's, which logs the tourist in as that aadhaar and drops the OTP (the
        session's aadhaar stays); 400 otherwise; 500 for a body that is not a JSON
        object. */
    method VerifyOtp(body: Value) returns (code: int)
      modifies this
      ensures code == 200 <==> body.Obj? && OtpMatches(body.fields, old(aadhaar), old(otp))
      ensures code == 500 <==> !body.Obj?
      ensures code == 200 || code == 400 || code == 500
      ensures code == 200 ==> touristLoggedIn && userId == Get(body.fields, "aadhaar", Null) && otp == Null
                              && aadhaar == old(aadhaar) && id == old(id)
      ensures code != 200 ==> otp == old(otp) && aadhaar == old(aadhaar) && touristLoggedIn == old(touristLoggedIn)
                              && userId == old(userId) && id == old(id)
    {
      if !body.Obj? {
        return 500;
      }
      var a := Get(body.fields, "aadhaar", Null);
      var o := Get(body.fields, "otp", Null);
      if a != aadhaar || o != otp {
        return 400;
      }
      touristLoggedIn := true;
      userId := a;
      otp := Null;
      code := 200;
    }

    /** verify_otp corrected: as VerifyOtp, but a session without a pending OTP never
        verifies. */
    method VerifyOtpChecked(body: Value) returns (code: int)
      modifies this
      ensures code == 200 <==> body.Obj? && OtpAccepted(body.fields, old(aadhaar), old(otp))
      ensures code == 500 <==> !body.Obj?
      ensures code == 200 || code == 400 || code == 500
      ensures code == 200 ==> touristLoggedIn && userId == Get(body.fields, "aadhaar", Null) && otp == Null
                              && aadhaar == old(aadhaar) && id == old(id)
      ensures code != 200 ==> otp == old(otp) && aadhaar == old(aadhaar) && touristLoggedIn == old(touristLoggedIn)
                              && userId == old(userId) && id == old(id)
    {
      if !body.Obj? {
        return 500;
      }
      var a := Get(body.fields, "aadhaar", Null);
      var o := Get(body.fields, "otp", Null);
      if otp == Null || a != aadhaar || o != otp {
        return 400;
      }
      touristLoggedIn := true;
      userId := a;
      otp := Null;
      code := 200;
    }
  }

  /** verify_otp as written accepts a request that carries neither field on a fresh
      session, and logs in a tourist whose user id is None. */
  method FreshSessionLogsInWithoutOtp() returns (code: int, loggedIn: bool, user: Value)
    ensures code == 200 && loggedIn && user == Null
  {
    var session := new Session();
    code := session.VerifyOtp(Obj(map[]));
    loggedIn, user := session.touristLoggedIn, session.userId;
  }

  /** verify_otp as written: after a proper login the OTP is gone but the aadhaar is
      not, so the same aadhaar without any OTP verifies a second time. */
  method OtpReplayAfterLogin(draw: int) returns (first: int, second: int)
    requires 100000 <= draw <= 999999
    ensures first == 200 && second == 200
  {
    var session := new Session();
    var aadhaar := Str("123456789012");
    var code := session.GetOtp(Obj(map["aadhaar" := aadhaar]), draw);
    first := session.VerifyOtp(Obj(map["aadhaar" := aadhaar, "otp" := Str(NatToString(draw))]));
    second := session.VerifyOtp(Obj(map["aadhaar" := aadhaar]));
  }

  /** The corrected check: the OTP get_otp issued verifies once, and neither a replay
      without OTP nor the same OTP again verifies after that. */
  method CheckedOtpIsSingleUse(draw: int) returns (first: int, replay: int, again: int)
    requires 100000 <= draw <= 999999
    ensures first == 200 && replay == 400 && again == 400
  {
    var session := new Session();
    var aadhaar := Str("123456789012");
    var code := session.GetOtp(Obj(map["aadhaar" := aadhaar]), draw);
    first := session.VerifyOtpChecked(Obj(map["aadhaar" := aadhaar, "otp" := Str(NatToString(draw))]));
    replay := session.VerifyOtpChecked(Obj(map["aadhaar" := aadhaar]));
    again := session.VerifyOtpChecked(Obj(map["aadhaar" := aadhaar, "otp" := Str(NatToString(draw))]));
  }

  /** With the corrected check, a login needs the pending OTP itself, and once it
      has succeeded (the OTP is dropped) no request verifies until get_otp runs
      again. */
  lemma CheckedOtpNeedsPendingOtp(request: Record, replay: Record, sessionAadhaar: Value, sessionOtp: Value)
    ensures OtpAccepted(request, sessionAadhaar, sessionOtp) ==>
              sessionOtp != Null && Get(request, "otp", Null) == sessionOtp
              && Get(request, "aadhaar", Null) == sessionAadhaar
    ensures !OtpAccepted(replay, sessionAadhaar, Null)
  {
  }

  // ---------------------------------------------------------------------------
  // Requests of the anomaly API

  /** What `data and "<a>" in data and "<b>" in data` followed by `data["<a>"]`,
      `data["<b>"]` makes of a request body: rejected (400), an exception (500), or the
      two values. */
  datatype Fields = Rejected | FieldsRaise | Fields(first: Value, second: Value)

  function TwoFields(data: Value, a: string, b: string): (r: Fields)
    ensures r.Rejected? <==> !Truthy(data) || (Truthy(data) && AllIn([a, b], data) == Some(false))
    ensures r.Fields? <==> data.Obj? && data.fields != map[] && a in data.fields && b in data.fields
    ensures r.Fields? ==> r.first == data.fields[a] && r.second == data.fields[b]
  {
    if !Truthy(data) then Rejected
    else match AllIn([a, b], data)
      case None => FieldsRaise
      case Some(false) => Rejected
      case Some(true) =>
        match (Subscript(data, a), Subscript(data, b))
        case (Some(x), Some(y)) => Fields(x, y)
        case _ => FieldsRaise
  }

  /** `data and "path" in data` followed by `data["path"]`. */
  datatype PathRequest = NoPath | PathRaises | PathIs(path: Value)

  function PathRequestOf(data: Value): (r: PathRequest)
    ensures r.NoPath? <==> !Truthy(data) || PyIn("path", data) == Some(false)
    ensures r.PathIs? <==> data.Obj? && "path" in data.fields
    ensures r.PathIs? ==> r.path == data.fields["path"]
  {
    if !Truthy(data) then NoPath
    else match PyIn("path", data)
      case None => PathRaises
      case Some(false) => NoPath
      case Some(true) =>
        match Subscript(data, "path")
        case Some(p) => PathIs(p)
        case None => PathRaises
  }

  /** `[(p['lat'], p['lng']) for p in path]`: iterating a list gives its items; an
      empty string or dict gives nothing; a non-empty string or dict gives strings,
      which cannot be subscripted by a string; anything else is not iterable. */
  function PathPairs(path: Value): (r: Option<seq<(Value, Value)>>)
    ensures path.Arr? ==> r == Pairs(path.items, "lat", "lng")
    ensures !path.Arr? ==> (r.Some? <==> path == Str("") || path == Obj(map[]))
    ensures r.Some? && !path.Arr? ==> r.value == []
  {
    match path
    case Arr(items) => Pairs(items, "lat", "lng")
    case Str(s) => if s == "" then Some([]) else None
    case Obj(fields) => if fields == map[] then Some([]) else None
    case _ => None
  }

  /** Does train() accept the waypoints (fewer than two, or all numbers)? */
  predicate Trainable(pairs: seq<(Value, Value)>, toFloat: FloatParser) {
    |pairs| < 2 || AllNumeric(pairs, toFloat)
  }

  /** A fresh detector after train(pairs): trained on the points exactly when there
      are at least two. */
  predicate TrainedOn(d: AnomalyDetector, pairs: seq<(Value, Value)>, toFloat: FloatParser)
    reads d
  {
    d.contamination == 0.1
    && if |pairs| < 2 then !d.isTrained && d.fitted == []
       else AllNumeric(pairs, toFloat) && d.isTrained && d.fitted == ToPoints(pairs, toFloat)
  }

  // ---------------------------------------------------------------------------
  // The alerts of one ping

  datatype AlertKind = ApproachingDangerZone | DangerZoneEntry | PathDeviation

  function KindName(k: AlertKind): string {
    match k
    case ApproachingDangerZone => "approaching_danger_zone"
    case DangerZoneEntry => "danger_zone_entry"
    case PathDeviation => "path_deviation"
  }

  /** The position of a kind in the order check_anomaly tests them. */
  function Rank(k: AlertKind): nat {
    match k
    case ApproachingDangerZone => 0
    case DangerZoneEntry => 1
    case PathDeviation => 2
  }

  /** One alert of a ping: its kind and, for the two zone alerts, the zone. */
  datatype Alert = Alert(kind: AlertKind, zone: Option<Record>)

  /** The alerts a ping raises, in order, and whether the handler raised (a 500)
      after logging them. */
  datatype Ping = Ping(alerts: seq<Alert>, crashed: bool)

  /** The alert a scan contributes: one for a hit, none otherwise. */
  function ZoneAlert(kind: AlertKind, scan: ScanResult): seq<Alert> {
    if scan.Hit? then [Alert(kind, Some(scan.zone))] else []
  }

  /** The decisions of check_anomaly from the outcomes of its three tests. A scan
      that raises ends the request, after what was logged before it. */
  function PingOf(approach: ScanResult, entry: ScanResult, deviates: bool): Ping {
    if approach.Raised? then Ping([], true)
    else if entry.Raised? then Ping(ZoneAlert(ApproachingDangerZone, approach), true)
    else Ping(ZoneAlert(ApproachingDangerZone, approach) + ZoneAlert(DangerZoneEntry, entry)
              + (if deviates then [Alert(PathDeviation, None)] else []), false)
  }

  /** The alerts of one ping: the approach scan, the entry scan, then the detector's
      verdict `deviates`. */
  function PingAlerts(location: (Value, Value), zones: seq<Record>, dist: Distance, deviates: bool): Ping {
    PingOf(CheckApproachingDangerZone(location, zones, dist), CheckDangerZoneEntry(location, zones, dist), deviates)
  }

  /** The entry the response lists for an alert. */
  function AnomalyEntry(a: Alert): Record {
    if a.zone.Some? then map["type" := Str(KindName(a.kind)), "zone" := Obj(a.zone.value)]
    else map["type" := Str(KindName(a.kind))]
  }

  /** The details logged with an alert; the location tuple is stored as a list. */
  function LogDetails(a: Alert, location: (Value, Value)): Value {
    if a.zone.Some? then Obj(map["location" := Arr([location.0, location.1]), "zone" := Obj(a.zone.value)])
    else Obj(map["location" := Arr([location.0, location.1])])
  }

  function Entries(alerts: seq<Alert>): (r: seq<Record>)
    ensures |r| == |alerts|
  {
    seq(|alerts|, i requires 0 <= i < |alerts| => AnomalyEntry(alerts[i]))
  }

  /** The alert records log_anomaly pushes for the alerts, in order. */
  function Logged(userId: string, location: (Value, Value), alerts: seq<Alert>, clock: real): (r: seq<Record>)
    ensures |r| == |alerts|
  {
    seq(|alerts|, i requires 0 <= i < |alerts| =>
          AlertRecord(Str(userId), KindName(alerts[i].kind), LogDetails(alerts[i], location), clock))
  }

  /** What check_anomaly answers once the session and the location are good. */
  datatype AnomalyReply = NoSessionId | InvalidLocation | ServerError | AllClear | Anomalies(anomalies: seq<Record>)

  function StatusCode(r: AnomalyReply): int {
    match r
    case NoSessionId => 400
    case InvalidLocation => 400
    case ServerError => 500
    case _ => 200
  }

  function ReplyOf(p: Ping): AnomalyReply {
    if p.crashed then ServerError
    else if p.alerts == [] then AllClear
    else Anomalies(Entries(p.alerts))
  }

  /** The alerts come in the order approaching, entry, deviation, each kind at most
      once; zone alerts carry their zone, and the two zones differ; a deviation is
      reported exactly when the detector says so and no scan raised. */
  lemma PingAlertsInOrder(location: (Value, Value), zones: seq<Record>, dist: Distance, deviates: bool)
    ensures var p := PingAlerts(location, zones, dist, deviates);
            (forall i, j :: 0 <= i < j < |p.alerts| ==> Rank(p.alerts[i].kind) < Rank(p.alerts[j].kind))
            && (forall i :: 0 <= i < |p.alerts| ==> (p.alerts[i].zone.Some? <==> p.alerts[i].kind != PathDeviation))
            && (forall i :: 0 <= i < |p.alerts| && p.alerts[i].zone.Some? ==> p.alerts[i].zone.value in zones)
            && (forall i, j :: 0 <= i < j < |p.alerts| && p.alerts[j].zone.Some? ==> p.alerts[i].zone != p.alerts[j].zone)
            && (!p.crashed ==> (deviates <==> exists i :: 0 <= i < |p.alerts| && p.alerts[i].kind == PathDeviation))
  {
    var approach := CheckApproachingDangerZone(location, zones, dist);
    var entry := CheckDangerZoneEntry(location, zones, dist);
    if approach.Hit? && entry.Hit? {
      ApproachAndEntryDiffer(location, zones, dist, 1.0);
    }
    PingOfInOrder(approach, entry, deviates, zones);
  }

  lemma PingOfInOrder(approach: ScanResult, entry: ScanResult, deviates: bool, zones: seq<Record>)
    requires approach.Hit? ==> approach.zone in zones
    requires entry.Hit? ==> entry.zone in zones
    requires approach.Hit? && entry.Hit? ==> approach.zone != entry.zone
    ensures var p := PingOf(approach, entry, deviates);
            (forall i, j :: 0 <= i < j < |p.alerts| ==> Rank(p.alerts[i].kind) < Rank(p.alerts[j].kind))
            && (forall i :: 0 <= i < |p.alerts| ==> (p.alerts[i].zone.Some? <==> p.alerts[i].kind != PathDeviation))
            && (forall i :: 0 <= i < |p.alerts| && p.alerts[i].zone.Some? ==> p.alerts[i].zone.value in zones)
            && (forall i, j :: 0 <= i < j < |p.alerts| && p.alerts[j].zone.Some? ==> p.alerts[i].zone != p.alerts[j].zone)
            && (!p.crashed ==> (deviates <==> exists i :: 0 <= i < |p.alerts| && p.alerts[i].kind == PathDeviation))
  {
    PingRanked(approach, entry, deviates);
    PingZones(approach, entry, deviates, zones);
    PingDeviation(approach, entry, deviates);
  }

  /** Position by position, the alerts of PingOf: the approach alert, the entry alert,
      then the deviation, which only a ping that did not raise reaches. */
  lemma PingAt(approach: ScanResult, entry: ScanResult, deviates: bool)
    ensures var p := PingOf(approach, entry, deviates);
            var a := ZoneAlert(ApproachingDangerZone, approach);
            var e := ZoneAlert(DangerZoneEntry, entry);
            |a| <= 1 && |e| <= 1 && |p.alerts| <= |a| + |e| + 1
            && forall i :: 0 <= i < |p.alerts| ==>
                 p.alerts[i] == (if i < |a| then a[0] else if i < |a| + |e| then e[0] else Alert(PathDeviation, None))
                 && (i >= |a| + |e| ==> !p.crashed && deviates)
  {
    var p := PingOf(approach, entry, deviates);
    var a := ZoneAlert(ApproachingDangerZone, approach);
    var e := ZoneAlert(DangerZoneEntry, entry);
    var d: seq<Alert> := if deviates then [Alert(PathDeviation, None)] else [];
    assert !p.crashed ==> p.alerts == a + e + d;
    assert p.crashed ==> p.alerts == [] || p.alerts == a;
  }

  lemma PingRanked(approach: ScanResult, entry: ScanResult, deviates: bool)
    ensures var p := PingOf(approach, entry, deviates);
            (forall i, j :: 0 <= i < j < |p.alerts| ==> Rank(p.alerts[i].kind) < Rank(p.alerts[j].kind))
            && (forall i :: 0 <= i < |p.alerts| ==> (p.alerts[i].zone.Some? <==> p.alerts[i].kind != PathDeviation))
  {
    PingAt(approach, entry, deviates);
  }

  lemma PingZones(approach: ScanResult, entry: ScanResult, deviates: bool, zones: seq<Record>)
    requires approach.Hit? ==> approach.zone in zones
    requires entry.Hit? ==> entry.zone in zones
    requires approach.Hit? && entry.Hit? ==> approach.zone != entry.zone
    ensures var p := PingOf(approach, entry, deviates);
            (forall i :: 0 <= i < |p.alerts| && p.alerts[i].zone.Some? ==> p.alerts[i].zone.value in zones)
            && (forall i, j :: 0 <= i < j < |p.alerts| && p.alerts[j].zone.Some? ==> p.alerts[i].zone != p.alerts[j].zone)
  {
    PingAt(approach, entry, deviates);
  }

  lemma PingDeviation(approach: ScanResult, entry: ScanResult, deviates: bool)
    ensures var p := PingOf(approach, entry, deviates);
            !p.crashed ==> (deviates <==> exists i :: 0 <= i < |p.alerts| && p.alerts[i].kind == PathDeviation)
  {
    var p := PingOf(approach, entry, deviates);
    PingAt(approach, entry, deviates);
    if !p.crashed && deviates {
      assert p.alerts[|p.alerts| - 1].kind == PathDeviation;
    }
  }

  /** The response is "ok" exactly when no zone is approached or entered and the
      detector does not flag the location; every zone was then measured. */
  lemma AllClearMeansNothingFound(location: (Value, Value), zones: seq<Record>, dist: Distance, deviates: bool)
    ensures ReplyOf(PingAlerts(location, zones, dist, deviates)) == AllClear <==>
              !deviates
              && CheckApproachingDangerZone(location, zones, dist).NoHit?
              && CheckDangerZoneEntry(location, zones, dist).NoHit?
  {
  }

  /** The response lists the alerts in the order they were logged, each with the type
      it was logged under, and every logged alert carries the session's id. */
  lemma ReplyMatchesLog(userId: string, location: (Value, Value), alerts: seq<Alert>, clock: real)
    ensures |Entries(alerts)| == |Logged(userId, location, alerts, clock)|
    ensures forall i :: 0 <= i < |alerts| ==>
              Get(Entries(alerts)[i], "type", Null) == Get(Logged(userId, location, alerts, clock)[i], "type", Null)
                                                     == Str(KindName(alerts[i].kind))
              && Get(Logged(userId, location, alerts, clock)[i], "user_id", Null) == Str(userId)
  {
    forall i | 0 <= i < |alerts|
      ensures Get(Entries(alerts)[i], "type", Null) == Str(KindName(alerts[i].kind))
      ensures Get(Logged(userId, location, alerts, clock)[i], "type", Null) == Str(KindName(alerts[i].kind))
      ensures Get(Logged(userId, location, alerts, clock)[i], "user_id", Null) == Str(userId)
    {
      EntryType(alerts[i]);
      AlertRecordFields(Str(userId), KindName(alerts[i].kind), LogDetails(alerts[i], location), clock);
    }
  }

  lemma EntryType(a: Alert)
    ensures Get(AnomalyEntry(a), "type", Null) == Str(KindName(a.kind))
  {
  }

  lemma AlertRecordFields(userId: Value, kind: string, details: Value, clock: real)
    ensures Get(AlertRecord(userId, kind, details, clock), "type", Null) == Str(kind)
    ensures Get(AlertRecord(userId, kind, details, clock), "user_id", Null) == userId
  {
  }

  // ---------------------------------------------------------------------------
  // The inactivity sweep

  /** `s.replace('Z', '+00:00')`: every 'Z', not only a trailing one. */
  function ReplaceZ(s: string): (r: string)
    decreases |s|
  {
    if s == [] then [] else ZPiece(s[0]) + ReplaceZ(s[1..])
  }

  function ZPiece(c: char): string {
    if c == 'Z' then "+00:00" else [c]
  }

  lemma {:induction false} ReplaceZAppend(a: string, b: string)
    ensures ReplaceZ(a + b) == ReplaceZ(a) + ReplaceZ(b)
    decreases |a|
  {
    if a != [] {
      var head := ZPiece(a[0]);
      assert (a + b)[0] == a[0] && (a + b)[1..] == a[1..] + b;
      ReplaceZAppend(a[1..], b);
      calc {
        ReplaceZ(a + b);
        head + ReplaceZ(a[1..] + b);
        head + (ReplaceZ(a[1..]) + ReplaceZ(b));
        (head + ReplaceZ(a[1..])) + ReplaceZ(b);
        ReplaceZ(a) + ReplaceZ(b);
      }
    } else {
      assert a + b == b;
    }
  }

  lemma {:induction false} ReplaceZKeepsPlain(s: string)
    requires forall i :: 0 <= i < |s| ==> s[i] != 'Z'
    ensures ReplaceZ(s) == s
    decreases |s|
  {
    if s != [] {
      ReplaceZKeepsPlain(s[1..]);
      assert ZPiece(s[0]) == [s[0]];
      assert [s[0]] + s[1..] == s;
    }
  }

  /** A UTC timestamp written with a trailing "Z" reaches fromisoformat with the
      "+00:00" offset instead. */
  lemma TrailingZBecomesOffset(s: string)
    requires forall i :: 0 <= i < |s| ==> s[i] != 'Z'
    ensures ReplaceZ(s + "Z") == s + "+00:00"
  {
    ReplaceZAppend(s, "Z");
    ReplaceZKeepsPlain(s);
  }

  /** `datetime.fromisoformat`, read as microseconds on the clock `now` is read on;
      None when it raises ValueError. */
  type IsoParser = string -> Option<int>

  /** What the sweep makes of a stored timestamp: a string is parsed; another falsy
      value means "never seen"; any other value raises (it has no tzinfo). */
  datatype Stamp = StampRaises | NoStamp | At(micros: int)

  function LastSeen(ts: Value, parseIso: IsoParser): (r: Stamp)
    ensures ts.Str? ==> (r.At? <==> parseIso(ReplaceZ(ts.s)).Some?) && r != NoStamp
    ensures r == NoStamp <==> !ts.Str? && !Truthy(ts)
  {
    if ts.Str? then
      match parseIso(ReplaceZ(ts.s))
      case None => StampRaises
      case Some(t) => At(t)
    else if !Truthy(ts) then NoStamp
    else StampRaises
  }

  /** One pass of the sweep over a latest location: the user id and the details of an
      inactivity alert, nothing, or an exception that ends the sweep. */
  function SweepLocation(loc: Record, parseIso: IsoParser, now: int): (r: EntryOutcome<(Value, Value)>)
    ensures r.Crash? <==> LastSeen(Get(loc, "timestamp", Null), parseIso) == StampRaises
    ensures r.Keep? <==> LastSeen(Get(loc, "timestamp", Null), parseIso).At?
                         && now - LastSeen(Get(loc, "timestamp", Null), parseIso).micros > 5 * MicrosPerMinute
    ensures r.Keep? ==>
              var elapsed := now - LastSeen(Get(loc, "timestamp", Null), parseIso).micros;
              r.result == (UserOf(loc), InactivityDetails(elapsed)) && Minutes(elapsed) > 5.0
  {
    var stamp := LastSeen(Get(loc, "timestamp", Null), parseIso);
    if stamp == StampRaises then Crash
    else
      var check := CheckInactivity(if stamp.At? then Some(stamp.micros) else None, now);
      if check.0 then Keep((UserOf(loc), InactivityDetails(check.1.value)))
      else Skip
  }

  /** `inactive_time.total_seconds() / 60` for a silence in microseconds. */
  function Minutes(elapsed: int): real {
    elapsed as real / 60000000.0
  }

  function InactivityDetails(elapsed: int): Value {
    Obj(map["duration_minutes" := Num(Minutes(elapsed))])
  }

  function SweepWith(parseIso: IsoParser, now: int): Record -> EntryOutcome<(Value, Value)> {
    loc => SweepLocation(loc, parseIso, now)
  }

  /** The "inactivity" alerts the sweep logs for the kept (user, details) pairs. */
  function InactivityAlerts(kept: seq<(Value, Value)>, clock: real): (r: seq<Record>)
    ensures |r| == |kept|
    decreases |kept|
  {
    if kept == [] then []
    else
      var n := |kept| - 1;
      InactivityAlerts(kept[..n], clock) + [AlertRecord(kept[n].0, "inactivity", kept[n].1, clock)]
  }

  lemma {:induction false} InactivityAlertsAt(kept: seq<(Value, Value)>, clock: real)
    ensures forall k :: 0 <= k < |kept| ==>
              InactivityAlerts(kept, clock)[k] == AlertRecord(kept[k].0, "inactivity", kept[k].1, clock)
    decreases |kept|
  {
    if kept != [] {
      var n := |kept| - 1;
      InactivityAlertsAt(kept[..n], clock);
      assert forall k :: 0 <= k < n ==> kept[..n][k] == kept[k];
    }
  }

  /** `alert` is the inactivity alert for location `loc`: its timestamp parsed to more
      than five minutes before `now`, and the alert names the location's user and the
      silence in minutes. */
  predicate InactivityAlertFor(alert: Record, loc: Record, parseIso: IsoParser, now: int, clock: real) {
    var stamp := LastSeen(Get(loc, "timestamp", Null), parseIso);
    stamp.At? && now - stamp.micros > 5 * MicrosPerMinute
    && alert == AlertRecord(UserOf(loc), "inactivity", InactivityDetails(now - stamp.micros), clock)
  }

  /** Every alert of a sweep is the inactivity alert for one of the latest locations,
      and there is at most one per latest location. */
  lemma SweepAlertsFacts(locations: seq<Record>, parseIso: IsoParser, now: int, clock: real)
    ensures var latest := LatestLocations(locations);
            var alerts := InactivityAlerts(Run(latest, SweepWith(parseIso, now)).kept, clock);
            |alerts| <= |latest|
            && forall k :: 0 <= k < |alerts| ==>
                 exists i :: 0 <= i < |latest| && InactivityAlertFor(alerts[k], latest[i], parseIso, now, clock)
  {
    var latest := LatestLocations(locations);
    var read := SweepWith(parseIso, now);
    var kept := Run(latest, read).kept;
    RunKeeps(latest, read);
    InactivityAlertsAt(kept, clock);
    forall k | 0 <= k < |kept|
      ensures exists i :: 0 <= i < |latest| && InactivityAlertFor(InactivityAlerts(kept, clock)[k], latest[i], parseIso, now, clock)
    {
      var i :| 0 <= i < |latest| && read(latest[i]) == Keep(kept[k]);
      KeptIsAlertFor(latest[i], parseIso, now, clock);
    }
  }

  lemma KeptIsAlertFor(loc: Record, parseIso: IsoParser, now: int, clock: real)
    requires SweepLocation(loc, parseIso, now).Keep?
    ensures var r := SweepLocation(loc, parseIso, now).result;
            InactivityAlertFor(AlertRecord(r.0, "inactivity", r.1, clock), loc, parseIso, now, clock)
  {
  }

  // ---------------------------------------------------------------------------
  // The external zone snapshot

  /** What fetch_live_incident_data returns for a feed (None: it raised). */
  function LiveData(feed: ExternalData.Feed, parseFloat: FloatParser): Option<seq<Record>> {
    if feed.Items? then ExternalData.Returned(Run(feed.items, ExternalData.ReadItemWith(parseFloat))) else Some([])
  }

  /** A refreshed snapshot only ever holds GDACS alert zones. */
  lemma LiveDataAreAlertZones(feed: ExternalData.Feed, parseFloat: FloatParser)
    ensures LiveData(feed, parseFloat).Some? ==>
              forall k :: 0 <= k < |LiveData(feed, parseFloat).value| ==>
                ExternalData.IsAlertZone(LiveData(feed, parseFloat).value[k])
  {
    if feed.Items? {
      ExternalData.AlertZonesFacts(feed.items, parseFloat);
    }
  }

  // ---------------------------------------------------------------------------
  // The application state

  /** The module-level state of main.py: the external zone snapshot, the detector
      registry by session id, and the database. */
  class Application {
    var externalZones: seq<Record>
    var detectors: map<string, AnomalyDetector>
    const db: Store

    constructor (db: Store)
      ensures this.db == db && externalZones == [] && detectors == map[]
    {
      this.db := db;
      externalZones := [];
      detectors := map[];
    }

    /** Would check_anomaly's detector step flag the location for this session? */
    function Deviates(id: string, location: (Value, Value), forest: OutlierOracle, toFloat: FloatParser): bool
      reads this, detectors.Values
    {
      id in detectors && detectors[id].isTrained && IsNumericPair(location, toFloat)
      && forest(detectors[id].contamination, detectors[id].fitted, ToPoint(location, toFloat)) == Some(-1)
    }

    /** get_zones: the database zones (in listing order) followed by the external
        snapshot. */
    method GetZones() returns (all: seq<Record>)
      ensures |externalZones| <= |all|
      ensures IsListing(all[..|all| - |externalZones|], db.zones)
      ensures all[|all| - |externalZones|..] == externalZones
    {
      var listed := db.GetAllZones();
      all := listed + externalZones;
      assert all[..|listed|] == listed;
    }

    /** planned_path: stores the path, then registers a fresh detector trained on its
        waypoints under the session id. A path Python cannot turn into waypoints, or
        waypoints train() rejects, answer 500 after the path is stored and leave the
        registry as it was. A null path makes the store raise: 500, with nothing
        stored. */
    method PlannedPath(session: Session, data: Value, toFloat: FloatParser) returns (code: int)
      modifies this, db
      ensures session.id == "" || PathRequestOf(data).NoPath? ==> code == 400
      ensures session.id != "" && PathRequestOf(data).PathRaises? ==> code == 500
      ensures code == 200 <==>
                session.id != "" && PathRequestOf(data).PathIs?
                && PathPairs(PathRequestOf(data).path).Some? && Trainable(PathPairs(PathRequestOf(data).path).value, toFloat)
      ensures session.id != "" && PathRequestOf(data).PathIs? && PathRequestOf(data).path == Null ==> code == 500
      ensures session.id != "" && PathRequestOf(data).PathIs? && PathRequestOf(data).path != Null ==>
                db.touristPaths == old(db.touristPaths)[session.id := PathRequestOf(data).path]
      ensures !(session.id != "" && PathRequestOf(data).PathIs? && PathRequestOf(data).path != Null) ==>
                db.touristPaths == old(db.touristPaths)
      ensures code == 200 ==>
                session.id in detectors && fresh(detectors[session.id])
                && detectors == old(detectors)[session.id := detectors[session.id]]
                && TrainedOn(detectors[session.id], PathPairs(PathRequestOf(data).path).value, toFloat)
      ensures code != 200 ==> detectors == old(detectors)
      ensures externalZones == old(externalZones)
      ensures db.zones == old(db.zones) && db.admins == old(db.admins) && db.alerts == old(db.alerts)
              && db.policeLocations == old(db.policeLocations)
    {
      if session.id == "" {
        return 400;
      }
      var request := PathRequestOf(data);
      if request.NoPath? {
        return 400;
      }
      if request.PathRaises? {
        return 500;
      }
      var refused := db.SetPlannedPath(session.id, request.path);
      if refused {
        return 500;
      }
      var detector := new AnomalyDetector();
      var pairs := PathPairs(request.path);
      if pairs.None? {
        return 500;
      }
      var raised := detector.Train(pairs.value, toFloat);
      if raised {
        return 500;
      }
      detectors := detectors[session.id := detector];
      code := 200;
    }

    /** check_anomaly: the approach scan, the entry scan and the detector, over the
        database zones followed by the external snapshot; each alert is listed and
        logged as it is found. */
    method CheckAnomaly(session: Session, data: Value, dist: Distance, forest: OutlierOracle, toFloat: FloatParser, clock: real)
      returns (reply: AnomalyReply)
      modifies db
      ensures session.id == "" ==> reply == NoSessionId
      ensures session.id != "" && TwoFields(data, "lat", "lng").Rejected? ==> reply == InvalidLocation
      ensures session.id != "" && TwoFields(data, "lat", "lng").FieldsRaise? ==> reply == ServerError
      ensures session.id == "" || !TwoFields(data, "lat", "lng").Fields? ==> db.alerts == old(db.alerts)
      ensures session.id != "" && TwoFields(data, "lat", "lng").Fields? ==>
                var location := (TwoFields(data, "lat", "lng").first, TwoFields(data, "lat", "lng").second);
                exists listed :: IsListing(listed, old(db.zones))
                  && var p := PingAlerts(location, listed + externalZones, dist, Deviates(session.id, location, forest, toFloat));
                     reply == ReplyOf(p) && db.alerts == old(db.alerts) + Logged(session.id, location, p.alerts, clock)
      ensures db.zones == old(db.zones) && db.admins == old(db.admins) && db.touristPaths == old(db.touristPaths)
              && db.policeLocations == old(db.policeLocations)
    {
      if session.id == "" {
        return NoSessionId;
      }
      var request := TwoFields(data, "lat", "lng");
      if request.Rejected? {
        return InvalidLocation;
      }
      if request.FieldsRaise? {
        return ServerError;
      }
      var location := (request.first, request.second);
      var listed := db.GetAllZones();
      reply := ReportAlerts(session.id, location, listed + externalZones, dist, forest, toFloat, clock);
    }

    /** The alert part of check_anomaly for one location and zone list. */
    method ReportAlerts(id: string, location: (Value, Value), zones: seq<Record>, dist: Distance,
                        forest: OutlierOracle, toFloat: FloatParser, clock: real) returns (reply: AnomalyReply)
      modifies db
      ensures var p := PingAlerts(location, zones, dist, Deviates(id, location, forest, toFloat));
              reply == ReplyOf(p) && db.alerts == old(db.alerts) + Logged(id, location, p.alerts, clock)
      ensures db.zones == old(db.zones) && db.admins == old(db.admins) && db.touristPaths == old(db.touristPaths)
              && db.policeLocations == old(db.policeLocations)
    {
      ghost var base := db.alerts;
      ghost var deviates := Deviates(id, location, forest, toFloat);
      var approach := CheckApproachingDangerZone(location, zones, dist);
      if approach.Raised? {
        return ServerError;
      }
      var anomalies := ReportScan(id, location, ApproachingDangerZone, approach, clock, [], [], base);
      assert [] + ZoneAlert(ApproachingDangerZone, approach) == ZoneAlert(ApproachingDangerZone, approach);
      var entry := CheckDangerZoneEntry(location, zones, dist);
      if entry.Raised? {
        assert PingAlerts(location, zones, dist, deviates) == Ping(ZoneAlert(ApproachingDangerZone, approach), true);
        return ServerError;
      }
      reply := ReportRest(id, location, forest, toFloat, clock, approach, entry, anomalies, base);
    }

    /** check_anomaly after both zone scans succeeded: the entry alert, the deviation
        alert, and the response. */
    method ReportRest(id: string, location: (Value, Value), forest: OutlierOracle, toFloat: FloatParser, clock: real,
                      approach: ScanResult, entry: ScanResult, anomalies: seq<Record>, ghost base: seq<Record>)
      returns (reply: AnomalyReply)
      requires !approach.Raised? && !entry.Raised?
      requires anomalies == Entries(ZoneAlert(ApproachingDangerZone, approach))
      requires db.alerts == base + Logged(id, location, ZoneAlert(ApproachingDangerZone, approach), clock)
      modifies db
      ensures var p := PingOf(approach, entry, Deviates(id, location, forest, toFloat));
              reply == ReplyOf(p) && db.alerts == base + Logged(id, location, p.alerts, clock)
      ensures db.zones == old(db.zones) && db.admins == old(db.admins) && db.touristPaths == old(db.touristPaths)
              && db.policeLocations == old(db.policeLocations)
    {
      ghost var alerts := ZoneAlert(ApproachingDangerZone, approach);
      var anomalies' := ReportScan(id, location, DangerZoneEntry, entry, clock, anomalies, alerts, base);
      alerts := alerts + ZoneAlert(DangerZoneEntry, entry);
      anomalies' := ReportDeviation(id, location, forest, toFloat, clock, anomalies', alerts, base);
      ghost var deviates := Deviates(id, location, forest, toFloat);
      alerts := alerts + if deviates then [Alert(PathDeviation, None)] else [];
      assert PingOf(approach, entry, deviates) == Ping(alerts, false);
      if anomalies' != [] {
        reply := Anomalies(anomalies');
      } else {
        reply := AllClear;
      }
    }

    /** The alert a zone scan contributes, if it hit, appended to the response and logged. */
    method ReportScan(id: string, location: (Value, Value), kind: AlertKind, scan: ScanResult, clock: real,
                      anomalies: seq<Record>, ghost alerts: seq<Alert>, ghost base: seq<Record>)
      returns (anomalies': seq<Record>)
      requires anomalies == Entries(alerts)
      requires db.alerts == base + Logged(id, location, alerts, clock)
      modifies db
      ensures anomalies' == Entries(alerts + ZoneAlert(kind, scan))
      ensures db.alerts == base + Logged(id, location, alerts + ZoneAlert(kind, scan), clock)
      ensures db.zones == old(db.zones) && db.admins == old(db.admins) && db.touristPaths == old(db.touristPaths)
              && db.policeLocations == old(db.policeLocations)
    {
      if scan.Hit? {
        anomalies' := Report(id, location, Alert(kind, Some(scan.zone)), clock, anomalies, alerts, base);
      } else {
        anomalies' := anomalies;
        assert alerts + ZoneAlert(kind, scan) == alerts;
      }
    }

    /** The path-deviation alert, when the user's detector flags the location, appended
        to the response and logged. */
    method ReportDeviation(id: string, location: (Value, Value), forest: OutlierOracle, toFloat: FloatParser, clock: real,
                           anomalies: seq<Record>, ghost alerts: seq<Alert>, ghost base: seq<Record>)
      returns (anomalies': seq<Record>)
      requires anomalies == Entries(alerts)
      requires db.alerts == base + Logged(id, location, alerts, clock)
      modifies db
      ensures var d := if Deviates(id, location, forest, toFloat) then [Alert(PathDeviation, None)] else [];
              anomalies' == Entries(alerts + d) && db.alerts == base + Logged(id, location, alerts + d, clock)
      ensures db.zones == old(db.zones) && db.admins == old(db.admins) && db.touristPaths == old(db.touristPaths)
              && db.policeLocations == old(db.policeLocations)
    {
      anomalies' := anomalies;
      var flagged := false;
      if id in detectors {
        var detector := detectors[id];
        flagged := detector.Predict(location, forest, toFloat);
      }
      if flagged {
        anomalies' := Report(id, location, Alert(PathDeviation, None), clock, anomalies, alerts, base);
      } else {
        assert alerts + [] == alerts;
      }
    }

    /** `anomalies.append(...)` and `database.log_anomaly(...)` for one alert. */
    method Report(id: string, location: (Value, Value), a: Alert, clock: real,
                  anomalies: seq<Record>, ghost alerts: seq<Alert>, ghost base: seq<Record>)
      returns (anomalies': seq<Record>)
      requires anomalies == Entries(alerts)
      requires db.alerts == base + Logged(id, location, alerts, clock)
      modifies db
      ensures anomalies' == Entries(alerts + [a])
      ensures db.alerts == base + Logged(id, location, alerts + [a], clock)
      ensures db.zones == old(db.zones) && db.admins == old(db.admins) && db.touristPaths == old(db.touristPaths)
              && db.policeLocations == old(db.policeLocations)
    {
      anomalies' := anomalies + [AnomalyEntry(a)];
      db.LogAnomaly(Str(id), KindName(a.kind), LogDetails(a, location), clock);
      assert Entries(alerts + [a]) == Entries(alerts) + [AnomalyEntry(a)];
      assert Logged(id, location, alerts + [a], clock)
             == Logged(id, location, alerts, clock) + [AlertRecord(Str(id), KindName(a.kind), LogDetails(a, location), clock)];
    }

    /** fetch_external_danger_zones: the snapshot is replaced only by a non-empty
        result; an empty result keeps it, and an exception of the fetch (`raised`,
        reported by the scheduler) leaves it too. */
    method FetchExternalDangerZones(feed: ExternalData.Feed, parseFloat: FloatParser)
      returns (raised: bool)
      modifies this
      ensures raised <==> LiveData(feed, parseFloat).None?
      ensures externalZones == if LiveData(feed, parseFloat).Some? && LiveData(feed, parseFloat).value != []
                               then LiveData(feed, parseFloat).value
                               else old(externalZones)
      ensures detectors == old(detectors)
    {
      var live := ExternalData.FetchLiveIncidentData(feed, parseFloat);
      if live.None? {
        return true;
      }
      if live.value != [] {
        externalZones := live.value;
      }
      raised := false;
    }

    /** check_for_anomalies over the children of "tourist_locations" in timestamp
        order: one "inactivity" alert per latest location found inactive. A child that
        is not a dict or a user id that cannot be a dict key stops the job before any
        alert; a timestamp that does not parse stops it after the alerts logged so far. */
    method CheckForAnomalies(children: seq<Value>, parseIso: IsoParser, now: int, clock: real)
      returns (crashed: bool)
      modifies db
      ensures LatestRaises(children) ==> crashed && db.alerts == old(db.alerts)
      ensures !LatestRaises(children)
              ==> crashed == Run(LatestLocations(ChildRecords(children)), SweepWith(parseIso, now)).crashed
                  && db.alerts == old(db.alerts)
                     + InactivityAlerts(Run(LatestLocations(ChildRecords(children)), SweepWith(parseIso, now)).kept, clock)
      ensures db.zones == old(db.zones) && db.admins == old(db.admins) && db.touristPaths == old(db.touristPaths)
              && db.policeLocations == old(db.policeLocations)
    {
      var found := GetLatestTouristLocations(children);
      if found.None? {
        return true;
      }
      crashed := Sweep(found.value, parseIso, now, clock);
    }

    /** The loop of check_for_anomalies over the latest locations. */
    method Sweep(latest: seq<Record>, parseIso: IsoParser, now: int, clock: real) returns (crashed: bool)
      modifies db
      ensures crashed == Run(latest, SweepWith(parseIso, now)).crashed
      ensures db.alerts == old(db.alerts) + InactivityAlerts(Run(latest, SweepWith(parseIso, now)).kept, clock)
      ensures db.zones == old(db.zones) && db.admins == old(db.admins) && db.touristPaths == old(db.touristPaths)
              && db.policeLocations == old(db.policeLocations)
    {
      var read := SweepWith(parseIso, now);
      ghost var kept: seq<(Value, Value)> := [];
      for i := 0 to |latest|
        invariant Run(latest[..i], read) == Processed(kept, false)
        invariant db.alerts == old(db.alerts) + InactivityAlerts(kept, clock)
        invariant db.zones == old(db.zones) && db.admins == old(db.admins) && db.touristPaths == old(db.touristPaths)
                  && db.policeLocations == old(db.policeLocations)
      {
        RunStep(latest, read, i);
        match read(latest[i]) {
          case Crash =>
            RunStops(latest, read, i + 1);
            return true;
          case Skip =>
          case Keep(alert) =>
            db.LogAnomaly(alert.0, "inactivity", alert.1, clock);
            assert (kept + [alert])[..|kept|] == kept;
            kept := kept + [alert];
        }
      }
      assert latest[..|latest|] == latest;
      crashed := false;
    }
  }
}
