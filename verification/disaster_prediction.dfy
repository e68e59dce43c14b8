/** The historical-disaster predictor (disaster_prediction.py): DBSCAN cluster labels
    over the loaded events, a frequency "probability" per cluster, and the next
    occurrence of a cluster's disaster predicted from its past dates. */
module DisasterPrediction {
  import opened Common

  const MicrosPerSecond: int := 1_000_000
  const SecondsPerDay: int := 86_400
  const MicrosPerDay: int := 86_400_000_000

  /** A historical disaster: where it happened, the moment its 'date' and 'time'
      strings name (whole seconds since 0001-01-01 00:00:00) and its description. */
  datatype DisasterEvent = DisasterEvent(lat: real, lng: real, when: nat, description: string)

  /** A predicted risk zone. `predicted` is the predicted moment in microseconds since
      0001-01-01 00:00:00; the zone's 'date' and 'time' entries are Day(predicted) and
      SecondOfDay(predicted) written out by strftime. */
  datatype PredictedZone = PredictedZone(lat: real, lng: real, description: string, prob: real, predicted: int)

  function Day(t: int): int { t / MicrosPerDay }

  function SecondOfDay(t: int): int { (t % MicrosPerDay) / MicrosPerSecond }

  // ---------------------------------------------------------------------------
  // Sorting a cluster's event times (the list sort in _predict_next_occurrence)

  ghost predicate Sorted(s: seq<int>) {
    forall i, j :: 0 <= i < j < |s| ==> s[i] <= s[j]
  }

  function Insert(x: int, s: seq<int>): (r: seq<int>)
    ensures |r| == |s| + 1
  {
    if s == [] || x <= s[0] then [x] + s
    else [s[0]] + Insert(x, s[1..])
  }

  /** Insertion sort: the ascending arrangement of the same times (SortSorted,
      SortPermutes). */
  function Sort(s: seq<int>): (r: seq<int>)
    ensures |r| == |s|
  {
    if s == [] then [] else Insert(s[0], Sort(s[1..]))
  }

  lemma {:induction false} InsertPermutes(x: int, s: seq<int>)
    ensures multiset(Insert(x, s)) == multiset(s) + multiset{x}
  {
    if s != [] && x > s[0] {
      InsertPermutes(x, s[1..]);
      assert s == [s[0]] + s[1..];
    }
  }

  lemma {:induction false} InsertSorted(x: int, s: seq<int>)
    requires Sorted(s)
    ensures Sorted(Insert(x, s))
    ensures Insert(x, s)[0] == if s == [] || x <= s[0] then x else s[0]
  {
    if s != [] && x > s[0] {
      var rest := Insert(x, s[1..]);
      InsertSorted(x, s[1..]);
      assert s[0] <= rest[0];
      forall k | 0 <= k < |rest| ensures s[0] <= rest[k] {
        assert rest[0] <= rest[k] || k == 0;
      }
    }
  }

  /** The sorted times are in ascending order. */
  lemma {:induction false} SortSorted(s: seq<int>)
    ensures Sorted(Sort(s))
  {
    if s != [] {
      SortSorted(s[1..]);
      InsertSorted(s[0], Sort(s[1..]));
    }
  }

  /** The sorted times are the same times. */
  lemma {:induction false} SortPermutes(s: seq<int>)
    ensures multiset(Sort(s)) == multiset(s)
  {
    if s != [] {
      SortPermutes(s[1..]);
      InsertPermutes(s[0], Sort(s[1..]));
      assert s == [s[0]] + s[1..];
    }
  }

  // ---------------------------------------------------------------------------
  // Sums, gaps and times of day

  function Sum(s: seq<int>): int {
    if s == [] then 0 else s[0] + Sum(s[1..])
  }

  lemma {:induction false} SumSnoc(s: seq<int>, x: int)
    ensures Sum(s + [x]) == Sum(s) + x
  {
    if s != [] {
      assert (s + [x])[1..] == s[1..] + [x];
      SumSnoc(s[1..], x);
    }
  }

  /** The consecutive differences of a list of times. */
  function Gaps(s: seq<int>): (r: seq<int>)
    requires |s| >= 1
    ensures |r| == |s| - 1
  {
    if |s| == 1 then [] else [s[1] - s[0]] + Gaps(s[1..])
  }

  /** The gaps telescope: their sum is the last time minus the first. */
  lemma {:induction false} GapsTelescope(s: seq<int>)
    requires |s| >= 1
    ensures Sum(Gaps(s)) == s[|s| - 1] - s[0]
  {
    if |s| > 1 {
      assert Gaps(s) == [s[1] - s[0]] + Gaps(s[1..]);
      GapsTelescope(s[1..]);
    }
  }

  /** The seconds since midnight of each time. */
  function TimesOfDay(s: seq<int>): (r: seq<int>)
    ensures |r| == |s|
  {
    if s == [] then [] else [s[0] % SecondsPerDay] + TimesOfDay(s[1..])
  }

  lemma {:induction false} TimesOfDayInsert(x: int, s: seq<int>)
    ensures Sum(TimesOfDay(Insert(x, s))) == x % SecondsPerDay + Sum(TimesOfDay(s))
  {
    if s == [] || x <= s[0] {
      assert TimesOfDay([x] + s) == [x % SecondsPerDay] + TimesOfDay(s);
    } else {
      assert TimesOfDay([s[0]] + Insert(x, s[1..])) == [s[0] % SecondsPerDay] + TimesOfDay(Insert(x, s[1..]));
      assert TimesOfDay(s) == [s[0] % SecondsPerDay] + TimesOfDay(s[1..]);
      TimesOfDayInsert(x, s[1..]);
    }
  }

  /** Sorting does not change the total of the times of day. */
  lemma {:induction false} TimesOfDaySort(s: seq<int>)
    ensures Sum(TimesOfDay(Sort(s))) == Sum(TimesOfDay(s))
  {
    if s != [] {
      TimesOfDaySort(s[1..]);
      TimesOfDayInsert(s[0], Sort(s[1..]));
      assert TimesOfDay(s) == [s[0] % SecondsPerDay] + TimesOfDay(s[1..]);
    }
  }

  lemma {:induction false} TimesOfDayBounds(s: seq<int>)
    ensures 0 <= Sum(TimesOfDay(s)) <= |s| * (SecondsPerDay - 1)
  {
    if s != [] {
      assert TimesOfDay(s) == [s[0] % SecondsPerDay] + TimesOfDay(s[1..]);
      TimesOfDayBounds(s[1..]);
    }
  }

  /** timedelta(seconds=x) keeps whole microseconds, rounding half to even:
      num / den rounded that way. */
  function RoundHalfEven(num: int, den: int): int
    requires den > 0
  {
    var q := num / den;
    var r := num % den;
    if 2 * r < den then q
    else if 2 * r > den then q + 1
    else if q % 2 == 0 then q
    else q + 1
  }

  /** Python's datetime.replace(hour, minute, second): keeps the date and the
      microseconds, sets the time of day. */
  function ReplaceTimeOfDay(t: int, secondOfDay: int): int {
    Day(t) * MicrosPerDay + secondOfDay * MicrosPerSecond + t % MicrosPerSecond
  }

  /** The mean gap between consecutive events, in microseconds, or 365 days for a
      single event. */
  function MeanGap(sorted: seq<int>): int
    requires |sorted| >= 1
  {
    if |sorted| > 1 then RoundHalfEven(MicrosPerSecond * Sum(Gaps(sorted)), |sorted| - 1)
    else 365 * MicrosPerDay
  }

  /** The predicted next occurrence (microseconds) of a cluster whose events happened
      at the given times (seconds). */
  function NextOccurrence(times: seq<int>): int
    requires |times| >= 1
  {
    var sorted := Sort(times);
    ReplaceTimeOfDay(LatestMoved(sorted), MeanTimeOfDay(sorted))
  }

  /** The latest event (microseconds) moved on by the mean gap. */
  function LatestMoved(sorted: seq<int>): int
    requires |sorted| >= 1
  {
    sorted[|sorted| - 1] * MicrosPerSecond + MeanGap(sorted)
  }

  /** The truncated mean of the events' seconds since midnight. */
  function MeanTimeOfDay(times: seq<int>): int
    requires |times| >= 1
  {
    Sum(TimesOfDay(times)) / |times|
  }

  /** _predict_next_occurrence: sorts the cluster's times, averages the consecutive
      gaps and the times of day, and moves the last event by the mean gap. */
  method PredictNextOccurrence(times: seq<int>) returns (predicted: int)
    requires |times| >= 1
    ensures predicted == NextOccurrence(times)
  {
    var events := Sort(times);
    var avgDelta: int;
    if |events| > 1 {
      var deltas := Gaps(events);
      var total := 0;
      for i := 0 to |deltas|
        invariant total == Sum(deltas[..i])
      {
        assert deltas[..i + 1] == deltas[..i] + [deltas[i]];
        SumSnoc(deltas[..i], deltas[i]);
        total := total + deltas[i];
      }
      assert deltas[..|deltas|] == deltas;
      avgDelta := RoundHalfEven(MicrosPerSecond * total, |events| - 1);
    } else {
      avgDelta := 365 * MicrosPerDay;
    }
    var last := events[|events| - 1] * MicrosPerSecond + avgDelta;
    var seconds := TimesOfDay(events);
    var totalSeconds := 0;
    for i := 0 to |seconds|
      invariant totalSeconds == Sum(seconds[..i])
    {
      assert seconds[..i + 1] == seconds[..i] + [seconds[i]];
      SumSnoc(seconds[..i], seconds[i]);
      totalSeconds := totalSeconds + seconds[i];
    }
    assert seconds[..|seconds|] == seconds;
    var avgSeconds := totalSeconds / |events|;
    predicted := ReplaceTimeOfDay(last, avgSeconds);
  }

  lemma SortedMember(s: seq<int>, v: int)
    requires Sorted(s) && v in s
    ensures s[0] <= v <= s[|s| - 1]
  {
    var k :| 0 <= k < |s| && s[k] == v;
    assert s[0] <= s[k] || k == 0;
  }

  lemma SortedEndsOccur(times: seq<int>)
    requires |times| >= 1
    ensures Sort(times)[0] in times && Sort(times)[|times| - 1] in times
  {
    var s := Sort(times);
    SortPermutes(times);
    assert s[0] in multiset(s) && s[|s| - 1] in multiset(s);
  }

  lemma SortedEndsBound(times: seq<int>)
    requires |times| >= 1
    ensures forall i :: 0 <= i < |times| ==> Sort(times)[0] <= times[i] <= Sort(times)[|times| - 1]
  {
    var s := Sort(times);
    SortPermutes(times);
    SortSorted(times);
    forall i | 0 <= i < |times| ensures s[0] <= times[i] <= s[|s| - 1] {
      assert times[i] in multiset(times);
      SortedMember(s, times[i]);
    }
  }

  /** The sorted times begin with the earliest event and end with the latest. */
  lemma SortedEnds(times: seq<int>)
    requires |times| >= 1
    ensures Sort(times)[0] in times && Sort(times)[|times| - 1] in times
    ensures forall i :: 0 <= i < |times| ==> Sort(times)[0] <= times[i] <= Sort(times)[|times| - 1]
  {
    SortedEndsOccur(times);
    SortedEndsBound(times);
  }

  /** The mean of the consecutive gaps is (last - first) / (n - 1), rounded to a
      microsecond; for the sorted times (SortedEnds) that is the span from the
      earliest to the latest event. */
  lemma MeanGapIsSpan(sorted: seq<int>)
    requires |sorted| >= 2
    ensures MeanGap(sorted) == RoundHalfEven(MicrosPerSecond * (sorted[|sorted| - 1] - sorted[0]), |sorted| - 1)
  {
    GapsTelescope(sorted);
  }

  lemma ReplaceTimeOfDayParts(t: int, secondOfDay: int)
    requires 0 <= secondOfDay < SecondsPerDay
    ensures Day(ReplaceTimeOfDay(t, secondOfDay)) == Day(t)
    ensures SecondOfDay(ReplaceTimeOfDay(t, secondOfDay)) == secondOfDay
  {
    var u := t % MicrosPerSecond;
    var v := secondOfDay * MicrosPerSecond + u;
    assert 0 <= v < MicrosPerDay;
    var r := Day(t) * MicrosPerDay + v;
    assert r / MicrosPerDay == Day(t) && r % MicrosPerDay == v;
    assert v / MicrosPerSecond == secondOfDay;
  }

  /** The truncated mean of n numbers below `bound` is below `bound`. */
  lemma MeanBelow(total: int, n: int, bound: int)
    requires n >= 1 && bound >= 1 && 0 <= total <= n * (bound - 1)
    ensures 0 <= total / n < bound
  {
    var q := total / n;
    assert total == q * n + total % n;
    if q >= bound {
      assert false;
    }
  }

  /** The predicted moment falls on the date of (latest event + mean gap) and at the
      truncated mean of the events' seconds since midnight, whatever order the
      cluster's events were listed in. */
  lemma PredictionDateAndTime(times: seq<int>)
    requires |times| >= 1
    ensures Day(NextOccurrence(times)) == Day(LatestMoved(Sort(times)))
    ensures SecondOfDay(NextOccurrence(times)) == MeanTimeOfDay(times)
    ensures 0 <= MeanTimeOfDay(times) < SecondsPerDay
  {
    MeanTimeOfDayIsValid(times);
    ReplaceTimeOfDayParts(LatestMoved(Sort(times)), MeanTimeOfDay(Sort(times)));
  }

  /** The mean time of day does not depend on the order of the events, and it is a
      second of the day. */
  lemma MeanTimeOfDayIsValid(times: seq<int>)
    requires |times| >= 1
    ensures MeanTimeOfDay(Sort(times)) == MeanTimeOfDay(times)
    ensures 0 <= MeanTimeOfDay(times) < SecondsPerDay
  {
    TimesOfDaySort(times);
    TimesOfDayBounds(times);
    MeanBelow(Sum(TimesOfDay(times)), |times|, SecondsPerDay);
  }

  /** Two disasters at one place exactly a year (365 days) apart: the next one is
      predicted a year after the later, at the same time of day. */
  lemma TwoEventsAYearApart(t: nat)
    ensures NextOccurrence([t, t + 365 * SecondsPerDay])
            == (t + 2 * 365 * SecondsPerDay) * MicrosPerSecond
  {
    var year := 365 * SecondsPerDay;
    var s := [t, t + year];
    assert Sort(s) == s by {
      assert Sort([t + year]) == [t + year];
    }
    assert Gaps(s) == [year];
    assert Sum([year]) == year;
    assert MeanGap(s) == year * MicrosPerSecond;
    assert TimesOfDay(s) == [t % SecondsPerDay, (t + year) % SecondsPerDay];
    assert (t + year) % SecondsPerDay == t % SecondsPerDay;
    assert Sum(TimesOfDay(s)) / 2 == t % SecondsPerDay;
    var raw := (t + year) * MicrosPerSecond + year * MicrosPerSecond;
    assert raw == (t + 2 * year) * MicrosPerSecond;
    assert raw % MicrosPerSecond == 0;
    var d := (t + 2 * year) / SecondsPerDay;
    assert (t + 2 * year) == d * SecondsPerDay + t % SecondsPerDay;
    assert raw == d * MicrosPerDay + (t % SecondsPerDay) * MicrosPerSecond;
    assert Day(raw) == d;
  }

  // ---------------------------------------------------------------------------
  // Clusters and zones

  /** The positions holding `l` in the label list, in ascending order (np.where). */
  function Indices(labels: seq<int>, l: int): seq<nat> {
    if labels == [] then []
    else
      var n := |labels| - 1;
      Indices(labels[..n], l) + (if labels[n] == l then [n] else [])
  }

  /** Only positions holding `l` are listed, in ascending order. */
  lemma {:induction false} IndicesSound(labels: seq<int>, l: int)
    ensures forall k :: 0 <= k < |Indices(labels, l)| ==>
              Indices(labels, l)[k] < |labels| && labels[Indices(labels, l)[k]] == l
    ensures forall k, k' :: 0 <= k < k' < |Indices(labels, l)| ==> Indices(labels, l)[k] < Indices(labels, l)[k']
  {
    if labels != [] {
      var n := |labels| - 1;
      var front := Indices(labels[..n], l);
      IndicesSound(labels[..n], l);
      forall k | 0 <= k < |front| ensures front[k] < n && labels[front[k]] == l {
        assert labels[..n][front[k]] == l;
      }
    }
  }

  /** Every position holding `l` is listed. */
  lemma {:induction false} IndicesComplete(labels: seq<int>, l: int, i: int)
    requires 0 <= i < |labels| && labels[i] == l
    ensures i in Indices(labels, l)
  {
    var n := |labels| - 1;
    if i < n {
      assert labels[..n][i] == l;
      IndicesComplete(labels[..n], l, i);
    }
  }

  /** The events at the given positions. */
  function Members(data: seq<DisasterEvent>, idx: seq<nat>): (m: seq<DisasterEvent>)
    requires InRange(data, idx)
    ensures |m| == |idx|
  {
    if idx == [] then [] else [data[idx[0]]] + Members(data, idx[1..])
  }

  /** Events that agree at the given positions give the same members. */
  lemma {:induction false} MembersAgree(d1: seq<DisasterEvent>, d2: seq<DisasterEvent>, idx: seq<nat>)
    requires InRange(d1, idx) && InRange(d2, idx)
    requires forall k :: 0 <= k < |idx| ==> d1[idx[k]] == d2[idx[k]]
    ensures Members(d1, idx) == Members(d2, idx)
  {
    if idx != [] {
      MembersAgree(d1, d2, idx[1..]);
    }
  }

  function Times(m: seq<DisasterEvent>): (r: seq<int>)
    ensures |r| == |m|
  {
    if m == [] then [] else [m[0].when as int] + Times(m[1..])
  }

  function SumLat(m: seq<DisasterEvent>): real {
    if m == [] then 0.0 else m[0].lat + SumLat(m[1..])
  }

  function SumLng(m: seq<DisasterEvent>): real {
    if m == [] then 0.0 else m[0].lng + SumLng(m[1..])
  }

  /** np.mean of the members' latitudes and of their longitudes. */
  function Centroid(m: seq<DisasterEvent>): (real, real)
    requires |m| >= 1
  {
    (SumLat(m) / |m| as real, SumLng(m) / |m| as real)
  }

  /** min(1.0, n / 10.0): the share of ten events a cluster has. */
  function Probability(n: nat): real {
    if n as real / 10.0 < 1.0 then n as real / 10.0 else 1.0
  }

  /** The zone's description; `{probability:.0%}` of k/10 prints 10k percent. */
  function Describe(sample: string, n: nat): string {
    var percent := if n < 10 then 10 * n else 100;
    "Predicted high risk of '" + sample + "'. Chance of occurence: " + NatToString(percent) + "%"
  }

  /** The zone a cluster yields, if its probability reaches the threshold and its next
      occurrence is strictly after `now` (microseconds). */
  function ClusterZone(m: seq<DisasterEvent>, threshold: real, now: int): Option<PredictedZone>
    requires |m| >= 1
  {
    var n := |m|;
    var prob := Probability(n);
    if prob >= threshold then
      var predicted := NextOccurrence(Times(m));
      if predicted > now then
        var centre := Centroid(m);
        Some(PredictedZone(centre.0, centre.1, Describe(m[0].description, n), prob, predicted))
      else None
    else None
  }

  /** No label in [lo, hi) other than noise points past the end of the data: the
      indexing of get_disaster_zones does not raise for those clusters. */
  ghost predicate FitsBetween(data: seq<DisasterEvent>, labels: seq<int>, lo: int, hi: int) {
    forall i :: 0 <= i < |labels| && labels[i] != -1 && lo <= labels[i] < hi ==> i < |data|
  }

  ghost predicate Fits(data: seq<DisasterEvent>, labels: seq<int>) {
    forall i :: 0 <= i < |labels| && labels[i] != -1 ==> i < |data|
  }

  /** Indexing the events by the positions of a cluster label raises IndexError. */
  predicate Raises(data: seq<DisasterEvent>, labels: seq<int>, l: int) {
    l != -1 && !InRange(data, Indices(labels, l))
  }

  lemma RaisesExactly(data: seq<DisasterEvent>, labels: seq<int>, l: int)
    ensures Raises(data, labels, l) <==> !FitsBetween(data, labels, l, l + 1)
  {
    IndicesSound(labels, l);
    if !Raises(data, labels, l) {
      forall i | 0 <= i < |labels| && labels[i] == l && l != -1
        ensures i < |data|
      {
        IndicesComplete(labels, l, i);
      }
    }
  }

  /** Every position is a valid index into the events. */
  predicate InRange(data: seq<DisasterEvent>, idx: seq<nat>) {
    forall k :: 0 <= k < |idx| ==> idx[k] < |data|
  }

  /** The zones of label l: none for noise or an absent label (nor for a label whose
      positions reach past the events, where the source raises instead). */
  function ZonesOfLabel(data: seq<DisasterEvent>, labels: seq<int>, threshold: real, now: int, l: int): seq<PredictedZone>
  {
    var idx := Indices(labels, l);
    if l == -1 || idx == [] || !InRange(data, idx) then []
    else
      match ClusterZone(Members(data, idx), threshold, now)
      case Some(z) => [z]
      case None => []
  }

  /** The zones of the labels lo, lo + 1, ..., hi - 1, in that order. */
  function ZonesBetween(data: seq<DisasterEvent>, labels: seq<int>, threshold: real, now: int, lo: int, hi: int): seq<PredictedZone>
    decreases hi - lo
  {
    if hi <= lo then []
    else ZonesBetween(data, labels, threshold, now, lo, hi - 1) + ZonesOfLabel(data, labels, threshold, now, hi - 1)
  }

  function MinLabel(labels: seq<int>): (m: int)
    requires labels != []
    ensures m in labels && forall i :: 0 <= i < |labels| ==> m <= labels[i]
  {
    if |labels| == 1 then labels[0]
    else var rest := MinLabel(labels[1..]); if labels[0] <= rest then labels[0] else rest
  }

  function MaxLabel(labels: seq<int>): (m: int)
    requires labels != []
    ensures m in labels && forall i :: 0 <= i < |labels| ==> labels[i] <= m
  {
    if |labels| == 1 then labels[0]
    else var rest := MaxLabel(labels[1..]); if labels[0] >= rest then labels[0] else rest
  }

  /** All the zones of a labelled data set, clusters in ascending label order (the
      order Python's set of small integer labels is iterated in). */
  function AllZones(data: seq<DisasterEvent>, labels: seq<int>, threshold: real, now: int): seq<PredictedZone>
  {
    if labels == [] then []
    else ZonesBetween(data, labels, threshold, now, MinLabel(labels), MaxLabel(labels) + 1)
  }

  function Locations(data: seq<DisasterEvent>): (r: seq<(real, real)>)
    ensures |r| == |data|
  {
    seq(|data|, i requires 0 <= i < |data| => (data[i].lat, data[i].lng))
  }

  /** DBSCAN(eps, min_samples) run on the standardised locations: the cluster label of
      each location, -1 for noise. */
  type Clusterer = (real, int, seq<(real, real)>) -> seq<int>

  /** Cluster numbers without gaps: every number from 0 up to the largest label occurs.
      For such labels `set(labels)` yields the clusters in ascending order (noise, -1,
      is skipped wherever it comes), which is the order the model walks them in. */
  predicate Contiguous(labels: seq<int>) {
    forall i, l :: 0 <= i < |labels| && 0 <= l <= labels[i] ==> l in labels
  }

  /** What sklearn promises of `labels_` after fit: one label per location, each a
      cluster number or -1, the clusters numbered 0, 1, ... as they are found. */
  ghost predicate LabelsEachPoint(dbscan: Clusterer) {
    forall eps, minSamples, pts :: |dbscan(eps, minSamples, pts)| == |pts|
      && (forall i :: 0 <= i < |pts| ==> dbscan(eps, minSamples, pts)[i] >= -1)
      && Contiguous(dbscan(eps, minSamples, pts))
  }

  /** One label per event: every cluster position is an event, so the cluster loop
      never raises IndexError. */
  lemma OneLabelPerEventFits(data: seq<DisasterEvent>, labels: seq<int>)
    requires |labels| == |data|
    ensures Fits(data, labels)
  {
  }

  /** One pass of the cluster loop of get_disaster_zones: the zone label l yields, or
      `raised` when indexing the events by the label's positions raises IndexError. */
  method LabelZones(data: seq<DisasterEvent>, labels: seq<int>, l: int, threshold: real, now: int)
    returns (raised: bool, zones: seq<PredictedZone>)
    ensures raised <==> Raises(data, labels, l)
    ensures !raised ==> zones == ZonesOfLabel(data, labels, threshold, now, l)
  {
    raised, zones := false, [];
    var idx := Indices(labels, l);
    if l == -1 || idx == [] {
      return;
    }
    if exists k :: 0 <= k < |idx| && idx[k] >= |data| {
      return true, [];
    }
    var m := Members(data, idx);
    var prob := Probability(|idx|);
    if prob >= threshold {
      var predicted := PredictNextOccurrence(Times(m));
      if predicted > now {
        var centre := Centroid(m);
        zones := [PredictedZone(centre.0, centre.1, Describe(m[0].description, |idx|), prob, predicted)];
      }
    }
  }

  /** The cluster loop run over the labels lo, ..., hi - 1: the zones found, or None
      once a label raises (the loop stops there). */
  function Scanned(data: seq<DisasterEvent>, labels: seq<int>, threshold: real, now: int, lo: int, hi: int): Option<seq<PredictedZone>>
    decreases hi - lo
  {
    if hi <= lo then Some([])
    else
      match Scanned(data, labels, threshold, now, lo, hi - 1)
      case None => None
      case Some(zones) =>
        if Raises(data, labels, hi - 1) then None
        else Some(zones + ZonesOfLabel(data, labels, threshold, now, hi - 1))
  }

  /** The cluster loop over every label from the smallest to the largest. */
  function Collected(data: seq<DisasterEvent>, labels: seq<int>, threshold: real, now: int): Option<seq<PredictedZone>> {
    if labels == [] then Some([])
    else Scanned(data, labels, threshold, now, MinLabel(labels), MaxLabel(labels) + 1)
  }

  lemma {:induction false} ScannedStaysRaised(data: seq<DisasterEvent>, labels: seq<int>, threshold: real, now: int, lo: int, l: int, hi: int)
    requires lo <= l <= hi
    requires Scanned(data, labels, threshold, now, lo, l).None?
    ensures Scanned(data, labels, threshold, now, lo, hi).None?
    decreases hi - l
  {
    if l < hi {
      ScannedStaysRaised(data, labels, threshold, now, lo, l + 1, hi);
    }
  }

  /** The loop over lo, ..., hi - 1 finishes exactly when no cluster position among
      those labels is out of range, and then it has the zones of ZonesBetween. */
  lemma {:induction false} ScannedMeaning(data: seq<DisasterEvent>, labels: seq<int>, threshold: real, now: int, lo: int, hi: int)
    ensures Scanned(data, labels, threshold, now, lo, hi).Some? <==> FitsBetween(data, labels, lo, hi)
    ensures Scanned(data, labels, threshold, now, lo, hi).Some? ==>
              Scanned(data, labels, threshold, now, lo, hi).value == ZonesBetween(data, labels, threshold, now, lo, hi)
    decreases hi - lo
  {
    if hi > lo {
      ScannedMeaning(data, labels, threshold, now, lo, hi - 1);
      RaisesExactly(data, labels, hi - 1);
      if FitsBetween(data, labels, lo, hi) {
        assert FitsBetween(data, labels, lo, hi - 1);
        assert FitsBetween(data, labels, hi - 1, hi);
      }
      if FitsBetween(data, labels, lo, hi - 1) && FitsBetween(data, labels, hi - 1, hi) {
        assert FitsBetween(data, labels, lo, hi);
      }
    }
  }

  /** The loop over all labels returns None exactly when some cluster position is past
      the events, and otherwise AllZones. */
  lemma CollectedMeaning(data: seq<DisasterEvent>, labels: seq<int>, threshold: real, now: int)
    ensures Collected(data, labels, threshold, now).None? <==> !Fits(data, labels)
    ensures Fits(data, labels) ==> Collected(data, labels, threshold, now) == Some(AllZones(data, labels, threshold, now))
  {
    if labels != [] {
      var lo, hi := MinLabel(labels), MaxLabel(labels) + 1;
      ScannedMeaning(data, labels, threshold, now, lo, hi);
      assert FitsBetween(data, labels, lo, hi) <==> Fits(data, labels);
    }
  }

  /** One turn of the cluster loop over the labels lo, ..., hi: appends label l's zones
      to those found so far, or reports that the loop raises. */
  method ScanLabel(data: seq<DisasterEvent>, labels: seq<int>, threshold: real, now: int, lo: int, l: int, hi: int,
                   zones: seq<PredictedZone>) returns (raised: bool, zones': seq<PredictedZone>)
    requires lo <= l <= hi
    requires Scanned(data, labels, threshold, now, lo, l) == Some(zones)
    ensures raised ==> Scanned(data, labels, threshold, now, lo, hi + 1).None?
    ensures !raised ==> Scanned(data, labels, threshold, now, lo, l + 1) == Some(zones')
  {
    var found;
    raised, found := LabelZones(data, labels, l, threshold, now);
    zones' := zones + found;
    if raised {
      ScannedStaysRaised(data, labels, threshold, now, lo, l + 1, hi + 1);
    }
  }

  /** The cluster loop of get_disaster_zones over the labels lo, ..., hi. */
  method CollectZones(data: seq<DisasterEvent>, labels: seq<int>, threshold: real, now: int, lo: int, hi: int)
    returns (r: Option<seq<PredictedZone>>)
    requires lo <= hi
    ensures r == Scanned(data, labels, threshold, now, lo, hi + 1)
  {
    var zones: seq<PredictedZone> := [];
    for l := lo to hi + 1
      invariant Scanned(data, labels, threshold, now, lo, l) == Some(zones)
    {
      var raised;
      raised, zones := ScanLabel(data, labels, threshold, now, lo, l, hi, zones);
      if raised {
        return None;
      }
    }
    r := Some(zones);
  }

  class DisasterPredictionModel {
    const eps: real
    const minSamples: int
    var isTrained: bool
    var historicalData: seq<DisasterEvent>
    /** DBSCAN's labels_ from the last successful fit. */
    var labels: seq<int>

    constructor (eps: real := 0.3, minSamples: int := 2)
      ensures this.eps == eps && this.minSamples == minSamples
      ensures !isTrained && historicalData == [] && labels == []
    {
      this.eps := eps;
      this.minSamples := minSamples;
      isTrained := false;
      historicalData := [];
      labels := [];
    }

    /** Replaces the events (the JSON file's content); the fit is left as it was. */
    method LoadHistoricalData(data: seq<DisasterEvent>)
      modifies this
      ensures historicalData == data
      ensures isTrained == old(isTrained) && labels == old(labels)
    {
      historicalData := data;
    }

    /** Clusters the loaded events. No data, or fewer events than min_samples, leave
        the model untrained and the previous labels in place. */
    method Train(dbscan: Clusterer)
      requires LabelsEachPoint(dbscan)
      modifies this
      ensures historicalData == old(historicalData)
      ensures isTrained <==> historicalData != [] && |historicalData| >= minSamples
      ensures labels == if isTrained then dbscan(eps, minSamples, Locations(historicalData)) else old(labels)
      ensures isTrained ==> |labels| == |historicalData| && Fits(historicalData, labels) && Contiguous(labels)
    {
      if historicalData == [] {
        isTrained := false;
        return;
      }
      if |historicalData| < minSamples {
        isTrained := false;
        return;
      }
      labels := dbscan(eps, minSamples, Locations(historicalData));
      isTrained := true;
      OneLabelPerEventFits(historicalData, labels);
    }

    /** The predicted zones, or None when the cluster indexing raises IndexError (a
        cluster reaching past events that were reloaded without retraining). An
        untrained model or an empty data set gives no zones. */
    method GetDisasterZones(now: int, threshold: real := 0.2) returns (r: Option<seq<PredictedZone>>)
      ensures !isTrained || historicalData == [] ==> r == Some([])
      ensures isTrained && historicalData != [] ==> (r.None? <==> !Fits(historicalData, labels))
      ensures isTrained && historicalData != [] && Fits(historicalData, labels) ==>
                r == Some(AllZones(historicalData, labels, threshold, now))
      ensures isTrained && |labels| == |historicalData| ==> r.Some?
    {
      if !isTrained || historicalData == [] {
        return Some([]);
      }
      if labels == [] {
        return Some([]);
      }
      r := CollectZones(historicalData, labels, threshold, now, MinLabel(labels), MaxLabel(labels));
      CollectedMeaning(historicalData, labels, threshold, now);
    }
  }

  // ---------------------------------------------------------------------------
  // What the zones promise

  lemma {:induction false} ZonesBetweenFacts(data: seq<DisasterEvent>, labels: seq<int>, threshold: real, now: int, lo: int, hi: int)
    ensures forall z :: z in ZonesBetween(data, labels, threshold, now, lo, hi) ==>
              threshold <= z.prob <= 1.0 && z.predicted > now
    decreases hi - lo
  {
    if hi > lo {
      ZonesBetweenFacts(data, labels, threshold, now, lo, hi - 1);
    }
  }

  /** No zone has a probability under the threshold or above 1, and none is
      predicted at or before `now`. */
  lemma ZonesAreLikelyAndFuture(data: seq<DisasterEvent>, labels: seq<int>, threshold: real, now: int)
    ensures forall z :: z in AllZones(data, labels, threshold, now) ==>
              threshold <= z.prob <= 1.0 && z.predicted > now
  {
    if labels != [] {
      ZonesBetweenFacts(data, labels, threshold, now, MinLabel(labels), MaxLabel(labels) + 1);
    }
  }

  lemma {:induction false} NoiseBetween(d1: seq<DisasterEvent>, d2: seq<DisasterEvent>, labels: seq<int>, threshold: real, now: int, lo: int, hi: int)
    requires Fits(d1, labels) && Fits(d2, labels)
    requires forall i :: 0 <= i < |labels| && labels[i] != -1 ==> d1[i] == d2[i]
    ensures ZonesBetween(d1, labels, threshold, now, lo, hi) == ZonesBetween(d2, labels, threshold, now, lo, hi)
    decreases hi - lo
  {
    if hi > lo {
      NoiseBetween(d1, d2, labels, threshold, now, lo, hi - 1);
      var l := hi - 1;
      var idx := Indices(labels, l);
      IndicesSound(labels, l);
      if l != -1 && idx != [] {
        forall k | 0 <= k < |idx| ensures idx[k] < |d1| && idx[k] < |d2| {
          assert labels[idx[k]] == l;
        }
        MembersAgree(d1, d2, idx);
      }
    }
  }

  /** Noise points (label -1) never shape a zone: events at noise positions can be
      anything without changing the result. */
  lemma NoiseNeverContributes(d1: seq<DisasterEvent>, d2: seq<DisasterEvent>, labels: seq<int>, threshold: real, now: int)
    requires Fits(d1, labels) && Fits(d2, labels)
    requires forall i :: 0 <= i < |labels| && labels[i] != -1 ==> d1[i] == d2[i]
    ensures AllZones(d1, labels, threshold, now) == AllZones(d2, labels, threshold, now)
  {
    if labels != [] {
      NoiseBetween(d1, d2, labels, threshold, now, MinLabel(labels), MaxLabel(labels) + 1);
    }
  }

  lemma {:induction false} SumLatBounds(m: seq<DisasterEvent>, lo: real, hi: real)
    requires forall k :: 0 <= k < |m| ==> lo <= m[k].lat <= hi
    ensures |m| as real * lo <= SumLat(m) <= |m| as real * hi
  {
    if m != [] {
      SumLatBounds(m[1..], lo, hi);
    }
  }

  lemma {:induction false} SumLngBounds(m: seq<DisasterEvent>, lo: real, hi: real)
    requires forall k :: 0 <= k < |m| ==> lo <= m[k].lng <= hi
    ensures |m| as real * lo <= SumLng(m) <= |m| as real * hi
  {
    if m != [] {
      SumLngBounds(m[1..], lo, hi);
    }
  }

  /** A cluster's centre is the per-axis mean of its members, so it lies in the box
      the members span. */
  lemma CentroidWithinMembers(m: seq<DisasterEvent>, latLo: real, latHi: real, lngLo: real, lngHi: real)
    requires |m| >= 1
    requires forall k :: 0 <= k < |m| ==> latLo <= m[k].lat <= latHi && lngLo <= m[k].lng <= lngHi
    ensures latLo <= Centroid(m).0 <= latHi && lngLo <= Centroid(m).1 <= lngHi
  {
    var n := |m| as real;
    SumLatBounds(m, latLo, latHi);
    SumLngBounds(m, lngLo, lngHi);
    MeanWithin(SumLat(m), n, latLo, latHi);
    MeanWithin(SumLng(m), n, lngLo, lngHi);
  }

  lemma MeanWithin(sum: real, n: real, lo: real, hi: real)
    requires n >= 1.0 && n * lo <= sum <= n * hi
    ensures lo <= sum / n <= hi
  {
  }

  /** A cluster needs two events for a zone at the default threshold 0.2, and ten or
      more events give probability 1. */
  lemma ProbabilityScale(n: nat)
    ensures Probability(n) >= 0.2 <==> n >= 2
    ensures n >= 10 ==> Probability(n) == 1.0
    ensures n < 10 ==> Probability(n) == n as real / 10.0
  {
  }
}
