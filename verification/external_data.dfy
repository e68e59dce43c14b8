/** The two external feeds (external_data.py): GDACS disaster alerts for India as danger
    zones, and police stations from the Geoapify Places API. The HTTP exchange, the XML
    parser and the JSON decoder are not modelled: each function receives what they
    produced. */
module ExternalData {
  import opened Common

  /** The value a fetch loop returns: the list it built, or None when an entry raised
      an exception the function does not catch. */
  function Returned(p: Processed<Record>): Option<seq<Record>> {
    if p.crashed then None else Some(p.kept)
  }

  // ---------------------------------------------------------------------------
  // Python's str.split for the GDACS link

  /** Does `sep` occur in `s` at position j? */
  predicate OccursAt(s: string, sep: string, j: int) {
    0 <= j && j + |sep| <= |s| && s[j..j + |sep|] == sep
  }

  /** The first position where `sep` occurs in `s`. */
  function IndexOf(s: string, sep: string): (r: Option<nat>)
    requires sep != []
    ensures r.Some? ==> OccursAt(s, sep, r.value)
    ensures forall j :: OccursAt(s, sep, j) ==> r.Some? && r.value <= j
    decreases |s|
  {
    if |s| < |sep| then None
    else if s[..|sep|] == sep then Some(0)
    else
      assert forall k :: OccursAt(s[1..], sep, k) ==> OccursAt(s, sep, k + 1) by {
        forall k | OccursAt(s[1..], sep, k) ensures OccursAt(s, sep, k + 1) {
          assert s[1..][k..k + |sep|] == s[k + 1..k + 1 + |sep|];
        }
      }
      assert forall j :: OccursAt(s, sep, j) ==> j >= 1 && OccursAt(s[1..], sep, j - 1) by {
        forall j | OccursAt(s, sep, j) ensures j >= 1 && OccursAt(s[1..], sep, j - 1) {
          assert s[..|sep|] == s[0..|sep|];
          assert s[1..][j - 1..j - 1 + |sep|] == s[j..j + |sep|];
        }
      }
      match IndexOf(s[1..], sep)
      case None => None
      case Some(i) => Some(i + 1)
  }

  /** An occurrence is the first one when the last character of `sep` appears neither
      earlier in `sep` nor before the occurrence in `s`. */
  lemma FirstOccurrence(s: string, sep: string, i: nat)
    requires sep != [] && OccursAt(s, sep, i)
    requires forall k :: 0 <= k < |sep| - 1 ==> sep[k] != sep[|sep| - 1]
    requires forall k :: 0 <= k < i ==> s[k] != sep[|sep| - 1]
    ensures IndexOf(s, sep) == Some(i)
  {
    forall j | 0 <= j < i ensures !OccursAt(s, sep, j) {
      var p := j + |sep| - 1;
      if p < i {
        assert s[p] != sep[|sep| - 1];
      } else {
        assert s[p] == s[i..i + |sep|][p - i] == sep[p - i];
      }
      if j + |sep| <= |s| {
        assert s[j..j + |sep|][|sep| - 1] == s[p];
      }
    }
  }

  const EventKey: string := "eventid="

  /** `link.split('eventid=')[1].split('&')[0]`, or "unknown" on the IndexError raised
      when the link holds no "eventid=". */
  function Guid(link: string): (g: string)
    ensures IndexOf(link, EventKey).None? ==> g == "unknown"
  {
    match IndexOf(link, EventKey)
    case None => "unknown"
    case Some(i) => EventIdOf(link[i + |EventKey|..])
  }

  /** What follows the first "eventid=": the text up to the next "eventid=", cut at
      its first '&'. */
  function EventIdOf(rest: string): string {
    var segment := match IndexOf(rest, EventKey) case None => rest case Some(j) => rest[..j];
    match IndexOf(segment, "&")
    case None => segment
    case Some(k) => segment[..k]
  }

  /** For a link of the usual shape `...?eventid=<id>&...`, whose part before the
      query has no '=', the guid is the event id. */
  lemma GuidOfLink(prefix: string, id: string, suffix: string)
    requires forall k :: 0 <= k < |prefix| ==> prefix[k] != '='
    requires forall k :: 0 <= k < |id| ==> id[k] != '&' && id[k] != '='
    ensures Guid(prefix + EventKey + id + "&" + suffix) == id
  {
    var rest := id + "&" + suffix;
    assert prefix + EventKey + id + "&" + suffix == prefix + EventKey + rest;
    FirstEventKey(prefix, rest);
    assert (prefix + EventKey + rest)[|prefix| + |EventKey|..] == rest;
    EventIdOfQuery(id, suffix);
  }

  /** A link whose part before "eventid=" has no '=' has its first "eventid=" there. */
  lemma FirstEventKey(prefix: string, rest: string)
    requires forall k :: 0 <= k < |prefix| ==> prefix[k] != '='
    ensures IndexOf(prefix + EventKey + rest, EventKey) == Some(|prefix|)
  {
    var link := prefix + EventKey + rest;
    assert link[|prefix|..|prefix| + |EventKey|] == EventKey;
    FirstOccurrence(link, EventKey, |prefix|);
  }

  lemma EventIdOfQuery(id: string, suffix: string)
    requires forall k :: 0 <= k < |id| ==> id[k] != '&' && id[k] != '='
    ensures EventIdOf(id + "&" + suffix) == id
  {
    var rest := id + "&" + suffix;
    forall j | 0 <= j <= |id| ensures !OccursAt(rest, EventKey, j) {
      if j + 7 < |id| {
        assert rest[j + 7] == id[j + 7];
        if j + 8 <= |rest| {
          assert rest[j..j + 8][7] == rest[j + 7];
        }
      } else {
        assert rest[|id|] == '&';
        if j + 8 <= |rest| {
          assert rest[j..j + 8][|id| - j] == rest[|id|];
        }
      }
    }
    var segment := match IndexOf(rest, EventKey) case None => rest case Some(j) => rest[..j];
    assert |segment| > |id| && segment[..|id| + 1] == id + "&";
    assert OccursAt(segment, "&", |id|) by {
      assert segment[|id|..|id| + 1] == "&";
    }
    FirstOccurrence(segment, "&", |id|);
    assert segment[..|id|] == id;
  }

  // ---------------------------------------------------------------------------
  // GDACS

  /** An XML element found by `item.find(...)`: absent, or present with its text. */
  datatype Element = Absent | Present(text: Option<string>)

  datatype Item = Item(country: Element, title: Element, link: Element, point: Element)

  /** What the request and the XML parser gave: a RequestException, a ParseError, or
      the items of the feed. */
  datatype Feed = Unreachable | Unparsable | Items(items: seq<Item>)

  /** The whitespace str.split() separates on (ASCII only). */
  predicate IsSpace(c: char) {
    c == ' ' || c == '\t' || c == '\n' || c == '\r' || c == '\U{B}' || c == '\U{C}'
  }

  /** The GDACS filter: a country element whose text contains "India". */
  predicate IsIndian(item: Item) {
    item.country.Present? && item.country.text.Some? && IsSubstring("India", item.country.text.value)
  }

  const AlertRadius: real := 50000.0

  /** The shape every GDACS zone has: external, 50 km, and an "ext_gdacs_" id. */
  predicate IsAlertZone(z: Record) {
    Get(z, "type", Null) == Str("external") && Get(z, "radius", Null) == Num(AlertRadius)
    && Get(z, "id", Null).Str? && "ext_gdacs_" <= Get(z, "id", Null).s
  }

  function AlertZone(guid: string, lat: real, lng: real, title: Option<string>): Record {
    map["id" := Str("ext_gdacs_" + guid), "lat" := Num(lat), "lng" := Num(lng),
        "radius" := Num(AlertRadius), "type" := Str("external"),
        "description" := if title.Some? then Str(title.value) else Null]
  }

  /** One pass of the GDACS loop. A missing title or link element, a point that is not
      two numbers, or a link without text raises (none of these is caught). */
  function ReadItem(item: Item, parseFloat: FloatParser): (r: EntryOutcome<Record>)
    ensures r.Keep? ==> IsIndian(item) && item.point.Present? && item.point.text.Some?
                        && IsAlertZone(r.result)
    ensures !IsIndian(item) ==> r.Skip?
  {
    if !IsIndian(item) then Skip
    else if item.title.Absent? || item.link.Absent? then Crash
    else if item.point.Absent? || item.point.text.None? || item.point.text.value == "" then Skip
    else
      var parts := Pieces(item.point.text.value, IsSpace);
      if |parts| != 2 then Crash
      else
        var lat := parseFloat(parts[0]);
        var lng := parseFloat(parts[1]);
        if lat.None? || lng.None? || item.link.text.None? then Crash
        else Keep(AlertZone(Guid(item.link.text.value), lat.value, lng.value, item.title.text))
  }

  function ReadItemWith(parseFloat: FloatParser): Item -> EntryOutcome<Record> {
    item => ReadItem(item, parseFloat)
  }

  /** fetch_live_incident_data: the zones of the Indian items, or [] when the feed
      cannot be fetched or parsed; None when an item raises. */
  method FetchLiveIncidentData(feed: Feed, parseFloat: FloatParser) returns (r: Option<seq<Record>>)
    ensures !feed.Items? ==> r == Some([])
    ensures feed.Items? ==> r == Returned(Run(feed.items, ReadItemWith(parseFloat)))
  {
    if !feed.Items? {
      return Some([]);
    }
    var read := ReadItemWith(parseFloat);
    var zones: seq<Record> := [];
    for i := 0 to |feed.items|
      invariant Run(feed.items[..i], read) == Processed(zones, false)
    {
      RunStep(feed.items, read, i);
      match read(feed.items[i]) {
        case Crash =>
          RunStops(feed.items, read, i + 1);
          return None;
        case Skip =>
        case Keep(z) =>
          zones := zones + [z];
      }
    }
    assert feed.items[..|feed.items|] == feed.items;
    r := Some(zones);
  }

  /** Every alert zone comes from an Indian item, is external, 50 km wide and named
      "ext_gdacs_..."; there are at most as many zones as items; the call raises
      exactly when some Indian item is malformed. */
  lemma AlertZonesFacts(items: seq<Item>, parseFloat: FloatParser)
    ensures var r := Returned(Run(items, ReadItemWith(parseFloat)));
            (r.None? <==> exists i :: 0 <= i < |items| && ReadItem(items[i], parseFloat).Crash?)
            && (r.Some? ==>
                 |r.value| <= |items|
                 && forall k :: 0 <= k < |r.value| ==>
                      (IsAlertZone(r.value[k])
                       && exists i :: 0 <= i < |items| && IsIndian(items[i])
                                      && ReadItem(items[i], parseFloat) == Keep(r.value[k])))
  {
    var read := ReadItemWith(parseFloat);
    RunCrashes(items, read);
    RunKeeps(items, read);
    var kept := Run(items, read).kept;
    forall k | 0 <= k < |kept|
      ensures IsAlertZone(kept[k])
      ensures exists i :: 0 <= i < |items| && IsIndian(items[i]) && ReadItem(items[i], parseFloat) == Keep(kept[k])
    {
      var i :| 0 <= i < |items| && read(items[i]) == Keep(kept[k]);
    }
  }

  /** An item outside India never makes a zone nor raises. */
  lemma ForeignItemsIgnored(items: seq<Item>, parseFloat: FloatParser)
    requires forall i :: 0 <= i < |items| ==> !IsIndian(items[i])
    ensures Returned(Run(items, ReadItemWith(parseFloat))) == Some([])
  {
    var read := ReadItemWith(parseFloat);
    RunCrashes(items, read);
    RunKeeps(items, read);
    if |Returned(Run(items, read)).value| > 0 {
      var i :| 0 <= i < |items| && read(items[i]) == Keep(Returned(Run(items, read)).value[0]);
    }
  }

  // ---------------------------------------------------------------------------
  // Geoapify

  /** What the request gave: a RequestException (an HTTP error status included), or a
      body with its JSON value (None when it is not JSON). */
  datatype Response = Failed | Body(json: Option<Value>)

  /** The shape every police unit has: a name, coordinates and a "geoapify_" id. */
  predicate IsPoliceUnit(u: Record) {
    Truthy(Get(u, "unit_name", Null)) && Truthy(Get(u, "latitude", Null)) && Truthy(Get(u, "longitude", Null))
    && Get(u, "id", Null).Str? && "geoapify_" <= Get(u, "id", Null).s
  }

  /** The police unit record for one place. */
  function PoliceUnit(props: Record, repr: Value -> string): Record {
    map["id" := Str("geoapify_" + PyStr(Get(props, "place_id", Null), repr)),
        "unit_name" := Get(props, "name", Null),
        "officer_name" := Get(props, "name", Null),
        "latitude" := Get(props, "lat", Null),
        "longitude" := Get(props, "lon", Null),
        "notes" := Get(props, "address_line2", Str("No additional details"))]
  }

  /** One pass of the Geoapify loop: a feature or properties value that is not a dict
      raises AttributeError; a place needs a truthy name, lat and lon. */
  function ReadFeature(feature: Value, repr: Value -> string): (r: EntryOutcome<Record>)
    ensures r.Keep? ==> IsPoliceUnit(r.result)
    ensures r.Crash? <==> !feature.Obj? || !Get(feature.fields, "properties", Obj(map[])).Obj?
  {
    if !feature.Obj? then Crash
    else
      var props := Get(feature.fields, "properties", Obj(map[]));
      if !props.Obj? then Crash
      else if Truthy(Get(props.fields, "name", Null)) && Truthy(Get(props.fields, "lat", Null))
              && Truthy(Get(props.fields, "lon", Null))
      then Keep(PoliceUnit(props.fields, repr))
      else Skip
  }

  function ReadFeatureWith(repr: Value -> string): Value -> EntryOutcome<Record> {
    f => ReadFeature(f, repr)
  }

  /** fetch_police_locations_from_api for the key read from the environment and the
      response to the places query. Every exception is caught, so any failure yields
      the empty list. */
  method FetchPoliceLocationsFromApi(apiKey: Option<string>, response: Response, repr: Value -> string)
    returns (r: seq<Record>)
    ensures apiKey.None? || apiKey.value == "" || response.Failed? || response.json.None? ==> r == []
    ensures apiKey.Some? && apiKey.value != "" && response.Body? && response.json.Some?
            && response.json.value.Obj? && Get(response.json.value.fields, "features", Arr([])).Arr?
            ==> var found := Returned(Run(Get(response.json.value.fields, "features", Arr([])).items,
                                    ReadFeatureWith(repr)));
                r == if found.Some? then found.value else []
    ensures |r| > 0 ==> apiKey.Some? && response.Body? && response.json.Some? && response.json.value.Obj?
                        && Get(response.json.value.fields, "features", Arr([])).Arr?
  {
    if apiKey.None? || apiKey.value == "" {
      return [];
    }
    if response.Failed? || response.json.None? {
      return [];
    }
    var data := response.json.value;
    if !data.Obj? {
      return [];
    }
    var features := Get(data.fields, "features", Arr([]));
    if !features.Arr? {
      return [];
    }
    var read := ReadFeatureWith(repr);
    var found: seq<Record> := [];
    for i := 0 to |features.items|
      invariant Run(features.items[..i], read) == Processed(found, false)
    {
      RunStep(features.items, read, i);
      match read(features.items[i]) {
        case Crash =>
          RunStops(features.items, read, i + 1);
          return [];
        case Skip =>
        case Keep(unit) =>
          found := found + [unit];
      }
    }
    assert features.items[..|features.items|] == features.items;
    r := found;
  }

  /** One feature that is not a dict, or whose properties are not a dict, empties the
      whole answer; otherwise every unit returned has a name and coordinates. */
  lemma PoliceUnitsFacts(features: seq<Value>, repr: Value -> string)
    ensures var r := Returned(Run(features, ReadFeatureWith(repr)));
            (r.None? <==> exists i :: 0 <= i < |features|
                            && (!features[i].Obj? || !Get(features[i].fields, "properties", Obj(map[])).Obj?))
            && (r.Some? ==> forall k :: 0 <= k < |r.value| ==>
                  IsPoliceUnit(r.value[k]))
  {
    var read := ReadFeatureWith(repr);
    RunCrashes(features, read);
    RunKeeps(features, read);
  }
}
