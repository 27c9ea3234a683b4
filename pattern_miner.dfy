// The pattern-mining worker (app/life_stream/workers/pattern_miner.py):
// location clusters from DBSCAN labels, hourly routines from the geo rollup,
// insights from a language model's reply, and the analysis run that saves
// the patterns.
//
// DBSCAN itself, `sqrt`, `json.loads`, the model call and `uuid4` are inputs:
// the labels, a square-root function, a decoding function and the reply.

module PatternMiner {
  import opened Wrappers
  import opened Text
  import opened Json
  import opened OracleText
  import opened Grouping
  import Clock
  import EventStore

  // ---------------------------------------------------------------------
  // Shared sequence arithmetic

  function Occurrences<T(==)>(xs: seq<T>, x: T): (n: nat)
    ensures n <= |xs|
    ensures n > 0 <==> x in xs
  {
    if xs == [] then 0
    else
      var init := xs[..|xs| - 1];
      assert xs == init + [xs[|xs| - 1]];
      Occurrences(init, x) + (if xs[|xs| - 1] == x then 1 else 0)
  }

  function Sum(xs: seq<real>): real
  {
    if xs == [] then 0.0 else Sum(xs[..|xs| - 1]) + xs[|xs| - 1]
  }

  /** `np.mean`. */
  function Mean(xs: seq<real>): real
    requires |xs| > 0
  {
    Sum(xs) / (|xs| as real)
  }

  lemma {:induction false} SumBounds(xs: seq<real>, lo: real, hi: real)
    requires forall i :: 0 <= i < |xs| ==> lo <= xs[i] <= hi
    ensures (|xs| as real) * lo <= Sum(xs) <= (|xs| as real) * hi
  {
    if xs != [] {
      SumBounds(xs[..|xs| - 1], lo, hi);
    }
  }

  /** The mean lies between any lower and upper bound of the values. */
  lemma MeanBounds(xs: seq<real>, lo: real, hi: real)
    requires |xs| > 0
    requires forall i :: 0 <= i < |xs| ==> lo <= xs[i] <= hi
    ensures lo <= Mean(xs) <= hi
  {
    SumBounds(xs, lo, hi);
    var n := |xs| as real;
    assert Sum(xs) / n >= lo by { assert Sum(xs) >= n * lo; }
    assert Sum(xs) / n <= hi by { assert Sum(xs) <= n * hi; }
  }

  /** `np.max`. */
  function MaxOf(xs: seq<real>): (m: real)
    requires |xs| > 0
    ensures m in xs && forall i :: 0 <= i < |xs| ==> xs[i] <= m
  {
    if |xs| == 1 then xs[0]
    else
      var prev := MaxOf(xs[..|xs| - 1]);
      assert forall x :: x in xs[..|xs| - 1] ==> x in xs;
      if xs[|xs| - 1] > prev then xs[|xs| - 1] else prev
  }

  /** `min` and `max` of datetimes. */
  function Earliest(ts: seq<Clock.Instant>): (m: Clock.Instant)
    requires |ts| > 0
    ensures m in ts && forall i :: 0 <= i < |ts| ==> m <= ts[i]
  {
    if |ts| == 1 then ts[0]
    else
      var prev := Earliest(ts[..|ts| - 1]);
      assert forall x :: x in ts[..|ts| - 1] ==> x in ts;
      if ts[|ts| - 1] < prev then ts[|ts| - 1] else prev
  }

  function Latest(ts: seq<Clock.Instant>): (m: Clock.Instant)
    requires |ts| > 0
    ensures m in ts && forall i :: 0 <= i < |ts| ==> ts[i] <= m
  {
    if |ts| == 1 then ts[0]
    else
      var prev := Latest(ts[..|ts| - 1]);
      assert forall x :: x in ts[..|ts| - 1] ==> x in ts;
      if ts[|ts| - 1] > prev then ts[|ts| - 1] else prev
  }

  // ---------------------------------------------------------------------
  // analyze_geo_patterns

  /** A row of `get_geo_points`: the query keeps only rows with both coordinates. */
  datatype GeoPoint = GeoPoint(lat: real, lon: real, timestamp: Clock.Instant)

  /** DBSCAN labels a point with its cluster number, or -1 for noise. */
  predicate DbscanLabels(labels: seq<int>)
  {
    forall i :: 0 <= i < |labels| ==> labels[i] >= -1
  }

  /** The labels in `[lo, lo + n)` that occur, in ascending order. */
  function LabelsIn(labels: seq<int>, lo: int, n: nat): (r: seq<int>)
    ensures forall i, j :: 0 <= i < j < |r| ==> r[i] < r[j]
    ensures forall x :: x in r <==> x in labels && lo <= x < lo + n
  {
    if n == 0 then []
    else
      var prev := LabelsIn(labels, lo, n - 1);
      assert forall i :: 0 <= i < |prev| ==> prev[i] in prev;
      if lo + n - 1 in labels then prev + [lo + n - 1] else prev
  }

  /** One more than the largest cluster, at least 0. */
  function LabelBound(labels: seq<int>): (b: nat)
    ensures forall i :: 0 <= i < |labels| ==> labels[i] < b
  {
    if labels == [] then 0
    else
      var prev := LabelBound(labels[..|labels| - 1]);
      var last := labels[|labels| - 1];
      assert forall i :: 0 <= i < |labels| - 1 ==> labels[i] == labels[..|labels| - 1][i];
      if last + 1 > prev then last + 1 else prev
  }

  /** `set(labels)`, iterated in ascending order. */
  function UniqueLabels(labels: seq<int>): (r: seq<int>)
    requires DbscanLabels(labels)
    ensures forall i, j :: 0 <= i < j < |r| ==> r[i] < r[j]
    ensures forall x :: x in r <==> x in labels
  {
    LabelsIn(labels, -1, LabelBound(labels) + 1)
  }

  /** `coords[labels == cluster]`, in point order. */
  function Members(points: seq<GeoPoint>, labels: seq<int>, cluster: int): (r: seq<GeoPoint>)
    requires |points| == |labels|
    ensures |r| == Occurrences(labels, cluster)
  {
    if points == [] then []
    else
      var init := Members(points[..|points| - 1], labels[..|labels| - 1], cluster);
      assert labels[..|labels| - 1] + [labels[|labels| - 1]] == labels;
      if labels[|labels| - 1] == cluster then init + [points[|points| - 1]] else init
  }

  function Lats(ms: seq<GeoPoint>): (r: seq<real>)
    ensures |r| == |ms| && forall i :: 0 <= i < |ms| ==> r[i] == ms[i].lat
  {
    seq(|ms|, i requires 0 <= i < |ms| => ms[i].lat)
  }

  function Lons(ms: seq<GeoPoint>): (r: seq<real>)
    ensures |r| == |ms| && forall i :: 0 <= i < |ms| ==> r[i] == ms[i].lon
  {
    seq(|ms|, i requires 0 <= i < |ms| => ms[i].lon)
  }

  function Times(ms: seq<GeoPoint>): (r: seq<Clock.Instant>)
    ensures |r| == |ms| && forall i :: 0 <= i < |ms| ==> r[i] == ms[i].timestamp
  {
    seq(|ms|, i requires 0 <= i < |ms| => ms[i].timestamp)
  }

  /** `visit_hours`: every member has a timestamp, so `if t` keeps them all. */
  function VisitHours(ms: seq<GeoPoint>): (r: seq<int>)
    ensures |r| == |ms| && forall i :: 0 <= i < |ms| ==> r[i] == Clock.Hour(ms[i].timestamp)
  {
    seq(|ms|, i requires 0 <= i < |ms| => Clock.Hour(ms[i].timestamp))
  }

  function Square(x: real): real { x * x }

  lemma SquareNonNegative(x: real)
    ensures Square(x) >= 0.0
  {
    if x < 0.0 {
      assert Square(x) == (-x) * (-x);
    }
  }

  /** Each member's distance from the centre, `sqrt` standing for `np.sqrt`. */
  function Distances(ms: seq<GeoPoint>, centerLat: real, centerLon: real, sqrt: real -> real): (r: seq<real>)
    ensures |r| == |ms|
    ensures forall i :: 0 <= i < |ms| ==> r[i] == sqrt(Square(ms[i].lat - centerLat) + Square(ms[i].lon - centerLon))
  {
    seq(|ms|, i requires 0 <= i < |ms| => sqrt(Square(ms[i].lat - centerLat) + Square(ms[i].lon - centerLon)))
  }

  predicate AllHours(hours: seq<int>)
  {
    forall i :: 0 <= i < |hours| ==> 0 <= hours[i] < 24
  }

  /** The first hour in `[0, n)` with the largest count. */
  function BestHourBelow(hours: seq<int>, n: nat): (h: int)
    requires 1 <= n
    ensures 0 <= h < n
    ensures forall k :: 0 <= k < n ==> Occurrences(hours, k) <= Occurrences(hours, h)
    ensures forall k :: 0 <= k < h ==> Occurrences(hours, k) < Occurrences(hours, h)
  {
    if n == 1 then 0
    else
      var prev := BestHourBelow(hours, n - 1);
      if Occurrences(hours, n - 1) > Occurrences(hours, prev) then n - 1 else prev
  }

  /**
   * `max(set(visit_hours), key=visit_hours.count)`, or 12 without visits:
   * an hour of maximal count, ties going to the earliest hour.
   */
  function ModalHour(hours: seq<int>): (h: int)
    requires AllHours(hours)
    ensures hours == [] ==> h == 12
    ensures hours != [] ==> h in hours && forall k :: k in hours ==> Occurrences(hours, k) <= Occurrences(hours, h)
    ensures hours != [] ==> forall k :: 0 <= k < h ==> Occurrences(hours, k) < Occurrences(hours, h)
  {
    if hours == [] then 12
    else
      var h := BestHourBelow(hours, 24);
      assert Occurrences(hours, hours[0]) > 0;
      h
  }

  const MorningPlace: string := "Утреннее место"
  const DaytimePlace: string := "Дневное место"
  const EveningPlace: string := "Вечернее место"
  const NightPlace: string := "Ночное место"

  /** The name hint; the buckets are tried in order, so 9 is morning and 18 daytime. */
  function NameHint(hour: int): (r: string)
    ensures r == MorningPlace <==> 6 <= hour <= 9
    ensures r == DaytimePlace <==> 9 < hour <= 18
    ensures r == EveningPlace <==> 18 < hour <= 22
    ensures r == NightPlace <==> hour < 6 || hour > 22
  {
    if 6 <= hour <= 9 then MorningPlace
    else if 9 <= hour <= 18 then DaytimePlace
    else if 18 <= hour <= 22 then EveningPlace
    else NightPlace
  }

  /** `{str(h): visit_hours.count(h) for h in set(visit_hours)}`, hours ascending. */
  function HourDistribution(hours: seq<int>, n: nat): (r: seq<(int, nat)>)
    ensures forall i, j :: 0 <= i < j < |r| ==> r[i].0 < r[j].0
    ensures forall i :: 0 <= i < |r| ==> 0 <= r[i].0 < n && r[i].0 in hours && r[i].1 == Occurrences(hours, r[i].0)
    ensures forall h :: 0 <= h < n && h in hours ==> exists i :: 0 <= i < |r| && r[i].0 == h
  {
    if n == 0 then []
    else
      var prev := HourDistribution(hours, n - 1);
      if n - 1 in hours then
        var r := prev + [(n - 1, Occurrences(hours, n - 1))];
        assert r[|prev|].0 == n - 1;
        assert forall i :: 0 <= i < |prev| ==> r[i] == prev[i];
        r
      else prev
  }

  /** A discovered location cluster, as `analyze_geo_patterns` builds it. */
  datatype LocationCluster = LocationCluster(
    cluster: int, name: string, description: string, confidence: real,
    centerLat: real, centerLon: real, radiusMeters: real,
    firstSeen: Clock.Instant, lastSeen: Clock.Instant, occurrences: nat,
    visitCount: nat, mostCommonHour: int, hourDistribution: seq<(int, nat)>)

  /** The cluster centre: the mean latitude and the mean longitude of the members. */
  function Center(ms: seq<GeoPoint>): (real, real)
    requires |ms| > 0
  {
    (Mean(Lats(ms)), Mean(Lons(ms)))
  }

  /** The largest member distance from the centre, times 111000 metres per degree. */
  function RadiusMeters(ms: seq<GeoPoint>, center: (real, real), sqrt: real -> real): real
    requires |ms| > 0
  {
    MaxOf(Distances(ms, center.0, center.1, sqrt)) * 111000.0
  }

  /** `min(0.95, 0.5 + n / 100)`. */
  function ClusterConfidence(n: nat): (c: real)
    ensures n >= 1 ==> 0.5 < c <= 0.95
    ensures n >= 45 ==> c == 0.95
    ensures n < 45 ==> c == 0.5 + (n as real) / 100.0
  {
    MinReal(0.95, 0.5 + (n as real) / 100.0)
  }

  function ClusterOf(points: seq<GeoPoint>, labels: seq<int>, cluster: int, sqrt: real -> real): (c: LocationCluster)
    requires |points| == |labels| && cluster in labels
    ensures c.cluster == cluster
    ensures c.occurrences == c.visitCount == Occurrences(labels, cluster) >= 1
    ensures c.firstSeen <= c.lastSeen
  {
    var ms := Members(points, labels, cluster);
    var n := |ms|;
    var center := Center(ms);
    var hours := VisitHours(ms);
    var hour := ModalHour(hours);
    LocationCluster(
      cluster, NameHint(hour) + " #" + IntToString(cluster),
      "Часто посещаемое место (" + NatToString(n) + " посещений)",
      ClusterConfidence(n), center.0, center.1, RadiusMeters(ms, center, sqrt),
      Earliest(Times(ms)), Latest(Times(ms)), n, n, hour, HourDistribution(hours, 24))
  }

  /** `min` over reals. */
  function MinOf(xs: seq<real>): (m: real)
    requires |xs| > 0
    ensures m in xs && forall i :: 0 <= i < |xs| ==> m <= xs[i]
  {
    if |xs| == 1 then xs[0]
    else
      var prev := MinOf(xs[..|xs| - 1]);
      assert forall x :: x in xs[..|xs| - 1] ==> x in xs;
      if xs[|xs| - 1] < prev then xs[|xs| - 1] else prev
  }

  /** The centre lies within the members' bounding box. */
  lemma CenterInBox(ms: seq<GeoPoint>)
    requires |ms| > 0
    ensures MinOf(Lats(ms)) <= Center(ms).0 <= MaxOf(Lats(ms))
    ensures MinOf(Lons(ms)) <= Center(ms).1 <= MaxOf(Lons(ms))
  {
    MeanBounds(Lats(ms), MinOf(Lats(ms)), MaxOf(Lats(ms)));
    MeanBounds(Lons(ms), MinOf(Lons(ms)), MaxOf(Lons(ms)));
  }

  /** Every member lies within the radius of the centre. */
  lemma WithinRadius(ms: seq<GeoPoint>, center: (real, real), sqrt: real -> real, i: nat)
    requires i < |ms|
    ensures sqrt(Square(ms[i].lat - center.0) + Square(ms[i].lon - center.1)) * 111000.0 <= RadiusMeters(ms, center, sqrt)
  {
    var d := Distances(ms, center.0, center.1, sqrt);
    assert d[i] <= MaxOf(d);
  }

  /** With a square root that is never negative, the radius is not negative. */
  lemma RadiusNonNegative(ms: seq<GeoPoint>, center: (real, real), sqrt: real -> real)
    requires |ms| > 0
    requires forall x :: x >= 0.0 ==> sqrt(x) >= 0.0
    ensures RadiusMeters(ms, center, sqrt) >= 0.0
  {
    var d := Distances(ms, center.0, center.1, sqrt);
    SquareNonNegative(ms[0].lat - center.0);
    SquareNonNegative(ms[0].lon - center.1);
    assert d[0] >= 0.0;
    assert MaxOf(d) >= d[0];
  }

  /** The labels that become clusters, in iteration order: noise is skipped. */
  function NonNoise(ls: seq<int>): (r: seq<int>)
    ensures forall x :: x in r <==> x in ls && x != -1
  {
    if ls == [] then []
    else
      var prev := NonNoise(ls[..|ls| - 1]);
      assert forall x :: x in ls[..|ls| - 1] ==> x in ls;
      assert ls == ls[..|ls| - 1] + [ls[|ls| - 1]];
      if ls[|ls| - 1] == -1 then prev else prev + [ls[|ls| - 1]]
  }

  predicate Ascending(xs: seq<int>)
  {
    forall i, j :: 0 <= i < j < |xs| ==> xs[i] < xs[j]
  }

  lemma {:induction false} NonNoiseAscending(ls: seq<int>)
    requires Ascending(ls)
    ensures Ascending(NonNoise(ls))
  {
    if ls != [] {
      var init := ls[..|ls| - 1];
      var last := ls[|ls| - 1];
      assert Ascending(init);
      NonNoiseAscending(init);
      var prev := NonNoise(init);
      forall i | 0 <= i < |prev| ensures prev[i] < last
      {
        assert prev[i] in prev;
        var j :| 0 <= j < |init| && init[j] == prev[i];
        assert ls[j] == prev[i];
      }
    }
  }

  /** `f` applied to the labels `ls` in order, noise skipped. */
  function MapClusters<T>(ls: seq<int>, f: int --> T): (r: seq<T>)
    requires forall x :: x in ls ==> f.requires(x)
    ensures |r| == |NonNoise(ls)|
    ensures forall i :: 0 <= i < |r| ==> NonNoise(ls)[i] in ls && r[i] == f(NonNoise(ls)[i])
  {
    if ls == [] then []
    else
      var init := ls[..|ls| - 1];
      var last := ls[|ls| - 1];
      assert forall x :: x in init ==> x in ls;
      var prev := MapClusters(init, f);
      if last == -1 then prev else prev + [f(last)]
  }

  /** The clusters of the labels `ls`, taken in order, noise skipped. */
  function Clusters(points: seq<GeoPoint>, labels: seq<int>, ls: seq<int>, sqrt: real -> real): (r: seq<LocationCluster>)
    requires |points| == |labels| && forall x :: x in ls ==> x in labels
  {
    MapClusters(ls, x requires x in labels => ClusterOf(points, labels, x, sqrt))
  }

  /** `analyze_geo_patterns` on the points of the period and their DBSCAN labels. */
  function GeoPatterns(points: seq<GeoPoint>, labels: seq<int>, minClusterSize: int, sqrt: real -> real): seq<LocationCluster>
    requires |points| == |labels| && DbscanLabels(labels)
  {
    if |points| < minClusterSize then [] else Clusters(points, labels, UniqueLabels(labels), sqrt)
  }

  method AnalyzeGeoPatterns(points: seq<GeoPoint>, labels: seq<int>, minClusterSize: int, sqrt: real -> real)
    returns (patterns: seq<LocationCluster>)
    requires |points| == |labels| && DbscanLabels(labels)
    ensures patterns == GeoPatterns(points, labels, minClusterSize, sqrt)
  {
    if |points| < minClusterSize {
      return [];
    }
    var uniqueLabels := UniqueLabels(labels);
    patterns := EachCluster(uniqueLabels, x requires x in labels => ClusterOf(points, labels, x, sqrt));
  }

  /** The loop over the labels: noise is skipped, every other label gets `summary(label)`. */
  method EachCluster<T>(uniqueLabels: seq<int>, summary: int --> T) returns (patterns: seq<T>)
    requires forall x :: x in uniqueLabels ==> summary.requires(x)
    ensures patterns == MapClusters(uniqueLabels, summary)
  {
    patterns := [];
    for k := 0 to |uniqueLabels|
      invariant patterns == MapClusters(uniqueLabels[..k], summary)
    {
      ghost var prefix := uniqueLabels[..k + 1];
      assert prefix[..k] == uniqueLabels[..k] && prefix[k] == uniqueLabels[k];
      assert forall x :: x in uniqueLabels[..k] ==> x in prefix;
      var cluster := uniqueLabels[k];
      if cluster == -1 {
        continue;
      }
      patterns := patterns + [summary(cluster)];
    }
    assert uniqueLabels[..|uniqueLabels|] == uniqueLabels;
  }

  /** Too few points: no clustering and no patterns. */
  lemma FewPointsNoPatterns(points: seq<GeoPoint>, labels: seq<int>, minClusterSize: int, sqrt: real -> real)
    requires |points| == |labels| && DbscanLabels(labels) && |points| < minClusterSize
    ensures GeoPatterns(points, labels, minClusterSize, sqrt) == []
  {
  }

  /**
   * Otherwise there is exactly one cluster per cluster other than -1, in
   * ascending cluster order, each with that cluster's statistics.
   */
  lemma OneClusterPerLabel(points: seq<GeoPoint>, labels: seq<int>, minClusterSize: int, sqrt: real -> real)
    requires |points| == |labels| && DbscanLabels(labels) && |points| >= minClusterSize
    ensures var ps := GeoPatterns(points, labels, minClusterSize, sqrt);
      (forall i, j :: 0 <= i < j < |ps| ==> ps[i].cluster < ps[j].cluster)
      && (forall x :: x in labels && x != -1 <==> exists i :: 0 <= i < |ps| && ps[i].cluster == x)
      && (forall i :: 0 <= i < |ps| ==> ps[i].cluster != -1 && ps[i] == ClusterOf(points, labels, ps[i].cluster, sqrt))
  {
    var ls := UniqueLabels(labels);
    var ps := Clusters(points, labels, ls, sqrt);
    ClusterLabels(points, labels, ls, sqrt);
    ClusterIds(points, labels, ls, sqrt);
    ClustersCover(ls, ps);
    ClustersAscending(ls, ps);
    assert GeoPatterns(points, labels, minClusterSize, sqrt) == Clusters(points, labels, ls, sqrt);
  }

  /** A label has a cluster exactly when it is not noise. */
  lemma ClustersCover(ls: seq<int>, ps: seq<LocationCluster>)
    requires |ps| == |NonNoise(ls)| && forall i :: 0 <= i < |ps| ==> ps[i].cluster == NonNoise(ls)[i]
    ensures forall x :: x in ls && x != -1 <==> exists i :: 0 <= i < |ps| && ps[i].cluster == x
  {
    forall x ensures x in ls && x != -1 <==> exists i :: 0 <= i < |ps| && ps[i].cluster == x
    {
      ClusterCoverAt(ls, ps, x);
    }
  }

  lemma ClusterCoverAt(ls: seq<int>, ps: seq<LocationCluster>, x: int)
    requires |ps| == |NonNoise(ls)| && forall i :: 0 <= i < |ps| ==> ps[i].cluster == NonNoise(ls)[i]
    ensures x in ls && x != -1 <==> exists i :: 0 <= i < |ps| && ps[i].cluster == x
  {
    var nn := NonNoise(ls);
    if x in ls && x != -1 {
      assert x in nn;
      var i :| 0 <= i < |nn| && nn[i] == x;
      assert ps[i].cluster == x;
    }
    if exists i :: 0 <= i < |ps| && ps[i].cluster == x {
      var i :| 0 <= i < |ps| && ps[i].cluster == x;
      assert nn[i] in nn;
    }
  }

  /** Ascending labels give clusters in ascending order. */
  lemma ClustersAscending(ls: seq<int>, ps: seq<LocationCluster>)
    requires |ps| == |NonNoise(ls)| && forall i :: 0 <= i < |ps| ==> ps[i].cluster == NonNoise(ls)[i]
    requires Ascending(ls)
    ensures forall i, j :: 0 <= i < j < |ps| ==> ps[i].cluster < ps[j].cluster
  {
    var nn := NonNoise(ls);
    NonNoiseAscending(ls);
    forall i, j | 0 <= i < j < |ps| ensures ps[i].cluster < ps[j].cluster
    {
      assert ps[i].cluster == nn[i] && ps[j].cluster == nn[j];
    }
  }

  /** The i-th cluster is that of the i-th label that is not noise. */
  lemma ClusterIds(points: seq<GeoPoint>, labels: seq<int>, ls: seq<int>, sqrt: real -> real)
    requires |points| == |labels| && forall x :: x in ls ==> x in labels
    ensures var ps := Clusters(points, labels, ls, sqrt);
      |ps| == |NonNoise(ls)| && forall i :: 0 <= i < |ps| ==> ps[i].cluster == NonNoise(ls)[i]
  {
    ClusterLabels(points, labels, ls, sqrt);
  }

  /** The i-th cluster is the summary of the i-th label that is not noise. */
  lemma ClusterLabels(points: seq<GeoPoint>, labels: seq<int>, ls: seq<int>, sqrt: real -> real)
    requires |points| == |labels| && forall x :: x in ls ==> x in labels
    ensures var ps := Clusters(points, labels, ls, sqrt);
      |ps| == |NonNoise(ls)|
      && forall i :: 0 <= i < |ps| ==>
           ps[i].cluster == NonNoise(ls)[i] && ps[i] == ClusterOf(points, labels, ps[i].cluster, sqrt)
  {
  }

  // ---------------------------------------------------------------------
  // analyze_time_patterns

  /** A row of `get_hourly_geo_summary`; `hour` is a non-null DateTime column. */
  datatype HourlyRow = HourlyRow(hour: Clock.Instant, pointsCount: int)

  /** `h["hour"].hour` (the `else 0` branch needs a null hour, which the column rules out). */
  function RowHour(row: HourlyRow): int { Clock.Hour(row.hour) }

  datatype Routine = Routine(
    hour: int, name: string, description: string, confidence: real, timePattern: string,
    frequencyPerWeek: real, firstSeen: Clock.Instant, lastSeen: Clock.Instant, occurrences: nat,
    avgPoints: real, daysObserved: nat)

  function PointCounts(rows: seq<HourlyRow>): (r: seq<real>)
    ensures |r| == |rows| && forall i :: 0 <= i < |rows| ==> r[i] == rows[i].pointsCount as real
  {
    seq(|rows|, i requires 0 <= i < |rows| => rows[i].pointsCount as real)
  }

  function HourStarts(rows: seq<HourlyRow>): (r: seq<Clock.Instant>)
    ensures |r| == |rows| && forall i :: 0 <= i < |rows| ==> r[i] == rows[i].hour
  {
    seq(|rows|, i requires 0 <= i < |rows| => rows[i].hour)
  }

  /** At least five rows at the hour, averaging more than ten points. */
  predicate Significant(rows: seq<HourlyRow>)
  {
    |rows| >= 5 && Mean(PointCounts(rows)) > 10.0
  }

  function ActivityName(hour: int): string
  {
    if 7 <= hour <= 9 then "Утренняя активность (возможно дорога на работу)"
    else if 12 <= hour <= 14 then "Обеденная активность"
    else if 17 <= hour <= 19 then "Вечерняя активность (возможно дорога домой)"
    else "Регулярная активность в " + IntToString(hour) + ":00"
  }

  /** The cron expression "0 h * * *": every day at minute 0 of hour h. */
  function DailyCron(hour: int): string
  {
    "0 " + IntToString(hour) + " * * *"
  }

  function RoutineOf(hour: int, rows: seq<HourlyRow>, days: int): Routine
    requires |rows| > 0 && days != 0
  {
    var n := |rows|;
    Routine(hour, ActivityName(hour),
            "Регулярная активность около " + IntToString(hour) + ":00 (" + NatToString(n) + " дней)",
            MinReal(0.9, 0.4 + (n as real) / 30.0), DailyCron(hour),
            WeeklyRate(n, days),
            Earliest(HourStarts(rows)), Latest(HourStarts(rows)), n, Mean(PointCounts(rows)), n)
  }

  /** The indices of the significant hour groups, ascending. */
  function SignificantGroups(groups: seq<(int, seq<HourlyRow>)>): (r: seq<nat>)
    ensures forall i :: 0 <= i < |r| ==> r[i] < |groups| && Significant(groups[r[i]].1)
    ensures forall i, j :: 0 <= i < j < |r| ==> r[i] < r[j]
    ensures forall k :: 0 <= k < |groups| && Significant(groups[k].1) ==> k in r
  {
    if groups == [] then []
    else
      var prev := SignificantGroups(groups[..|groups| - 1]);
      var k := |groups| - 1;
      if Significant(groups[k].1) then prev + [k] else prev
  }

  /**
   * The loop over `hour_activity`, one routine per significant group; the
   * first one divides by `days / 7` and raises ZeroDivisionError when days is 0.
   */
  function Routines(groups: seq<(int, seq<HourlyRow>)>, days: int): (r: Result<seq<Routine>>)
    ensures r.Err? <==> days == 0 && SignificantGroups(groups) != []
    ensures r.Err? ==> r.error == ZeroDivisionError
  {
    if groups == [] then Ok([])
    else
      var prev := Routines(groups[..|groups| - 1], days);
      var last := groups[|groups| - 1];
      if prev.Err? || !Significant(last.1) then prev
      else if days == 0 then Err(ZeroDivisionError)
      else Ok(prev.value + [RoutineOf(last.0, last.1, days)])
  }

  /** `analyze_time_patterns`; `days` is `(end_time - start_time).days`. */
  function TimePatterns(rows: seq<HourlyRow>, days: int): Result<seq<Routine>>
  {
    if rows == [] then Ok([]) else Routines(GroupBy(rows, RowHour), days)
  }

  method AnalyzeTimePatterns(rows: seq<HourlyRow>, days: int) returns (r: Result<seq<Routine>>)
    ensures r == TimePatterns(rows, days)
  {
    if rows == [] {
      return Ok([]);
    }
    var hourActivity := GroupElements(rows, RowHour);
    var patterns: seq<Routine> := [];
    for g := 0 to |hourActivity|
      invariant Routines(hourActivity[..g], days) == Ok(patterns)
    {
      var group := hourActivity[g];
      var activities := group.1;
      ghost var prefix := hourActivity[..g + 1];
      assert prefix[..g] == hourActivity[..g] && prefix[g] == group;
      if |activities| >= 5 {
        var avgPoints := Mean(PointCounts(activities));
        if avgPoints > 10.0 {
          if days == 0 {
            return Err(ZeroDivisionError);
          }
          patterns := patterns + [RoutineOf(group.0, activities, days)];
        }
      }
    }
    assert hourActivity[..|hourActivity|] == hourActivity;
    return Ok(patterns);
  }

  /** With a non-empty window, the routines are exactly those of the significant groups, in group order. */
  lemma {:induction false} RoutinesOfGroups(groups: seq<(int, seq<HourlyRow>)>, days: int)
    requires days != 0
    ensures RoutinesMatch(groups, days)
  {
    if groups != [] {
      var init := groups[..|groups| - 1];
      RoutinesOfGroups(init, days);
      if Significant(groups[|groups| - 1].1) {
        RoutinesSignificantLast(groups, days);
      } else {
        assert forall k :: 0 <= k < |init| ==> init[k] == groups[k];
        assert SignificantGroups(groups) == SignificantGroups(init);
        assert Routines(groups, days) == Routines(init, days);
      }
    }
  }

  /** The routines are one per significant group, in group order. */
  predicate RoutinesMatch(groups: seq<(int, seq<HourlyRow>)>, days: int)
    requires days != 0
  {
    var sig := SignificantGroups(groups);
    Routines(groups, days).Ok?
    && |Routines(groups, days).value| == |sig|
    && forall i :: 0 <= i < |sig| ==>
         Routines(groups, days).value[i] == RoutineOf(groups[sig[i]].0, groups[sig[i]].1, days)
  }

  /** A significant last group adds its routine after those of the groups before it. */
  lemma RoutinesSignificantLast(groups: seq<(int, seq<HourlyRow>)>, days: int)
    requires days != 0 && groups != [] && Significant(groups[|groups| - 1].1)
    requires RoutinesMatch(groups[..|groups| - 1], days)
    ensures RoutinesMatch(groups, days)
  {
    var init := groups[..|groups| - 1];
    var last := groups[|groups| - 1];
    var prev := Routines(init, days);
    var sig0 := SignificantGroups(init);
    assert forall k :: 0 <= k < |init| ==> init[k] == groups[k];
    var sig := SignificantGroups(groups);
    var rs := prev.value + [RoutineOf(last.0, last.1, days)];
    assert sig == sig0 + [|groups| - 1];
    assert Routines(groups, days) == Ok(rs);
    forall i | 0 <= i < |sig| ensures rs[i] == RoutineOf(groups[sig[i]].0, groups[sig[i]].1, days)
    {
      if i < |sig0| {
        assert rs[i] == prev.value[i] && sig[i] == sig0[i];
      }
    }
  }

  /**
   * Every routine has at least five days at its hour averaging more than
   * ten points, confidence min(0.9, 0.4 + n/30) in (0.4, 0.9], the daily
   * cron at its hour, n per week of the window, and first_seen <= last_seen.
   */
  lemma RoutineStats(hour: int, rows: seq<HourlyRow>, days: int)
    requires Significant(rows) && days != 0
    ensures var r := RoutineOf(hour, rows, days);
      r.hour == hour && r.occurrences == r.daysObserved == |rows| >= 5 && r.avgPoints > 10.0
      && r.confidence == MinReal(0.9, 0.4 + (|rows| as real) / 30.0) && 0.4 < r.confidence <= 0.9
      && r.timePattern == DailyCron(hour)
      && r.frequencyPerWeek == WeeklyRate(|rows|, days)
      && r.firstSeen <= r.lastSeen
  {
  }

  /** `n / (days / 7)`. */
  function WeeklyRate(n: nat, days: int): real
    requires days != 0
  {
    (n as real) / ((days as real) / 7.0)
  }

  /** The rate is the number of times per week over a window of `days` days. */
  lemma PerWeek(n: nat, days: int)
    requires days != 0
    ensures WeeklyRate(n, days) == (n as real) * 7.0 / (days as real)
  {
    var d := days as real;
    calc {
      (n as real) / (d / 7.0);
      ((n as real) * 7.0) / ((d / 7.0) * 7.0);
      (n as real) * 7.0 / d;
    }
  }

  /** Each routine's hour has a group that holds every row at that hour; no hour gets two routines. */
  lemma RoutineHours(rows: seq<HourlyRow>, days: int)
    requires rows != [] && days != 0
    ensures var rs := TimePatterns(rows, days);
      rs.Ok?
      && (forall i :: 0 <= i < |rs.value| ==>
            Significant(WithKey(rows, RowHour, rs.value[i].hour))
            && rs.value[i] == RoutineOf(rs.value[i].hour, WithKey(rows, RowHour, rs.value[i].hour), days))
      && (forall i, j :: 0 <= i < j < |rs.value| ==> rs.value[i].hour != rs.value[j].hour)
  {
    var groups := GroupBy(rows, RowHour);
    RoutinesOfGroups(groups, days);
    GroupBySpec(rows, RowHour);
    var sig := SignificantGroups(groups);
    var rs := Routines(groups, days).value;
    forall i | 0 <= i < |rs|
      ensures Significant(WithKey(rows, RowHour, rs[i].hour))
              && rs[i] == RoutineOf(rs[i].hour, WithKey(rows, RowHour, rs[i].hour), days)
    {
      GroupAt(rows, RowHour, sig[i]);
    }
    forall i, j | 0 <= i < j < |rs| ensures rs[i].hour != rs[j].hour
    {
      DistinctKeysAt(groups, sig[i], sig[j]);
    }
  }

  /** An empty window raises as soon as some hour qualifies, and only then. */
  lemma EmptyWindow(rows: seq<HourlyRow>)
    ensures TimePatterns(rows, 0).Err? <==> exists h :: Significant(WithKey(rows, RowHour, h))
  {
    if rows != [] {
      var groups := GroupBy(rows, RowHour);
      GroupBySpec(rows, RowHour);
      if exists h :: Significant(WithKey(rows, RowHour, h)) {
        var h :| Significant(WithKey(rows, RowHour, h));
        WithKeyEmpty(rows, RowHour, h);
        assert h in GroupKeys(groups);
        KeyIndexExists(groups, h);
        var k :| 0 <= k < |groups| && groups[k].0 == h;
        GroupAt(rows, RowHour, k);
        assert k in SignificantGroups(groups);
      }
      if SignificantGroups(groups) != [] {
        var k := SignificantGroups(groups)[0];
        GroupAt(rows, RowHour, k);
      }
    } else {
      forall h ensures !Significant(WithKey(rows, RowHour, h)) {}
    }
  }

  lemma {:induction false} KeyIndexExists(groups: seq<(int, seq<HourlyRow>)>, h: int)
    requires h in GroupKeys(groups)
    ensures exists k :: 0 <= k < |groups| && groups[k].0 == h
  {
    if groups[0].0 != h {
      KeyIndexExists(groups[1..], h);
      var k :| 0 <= k < |groups[1..]| && groups[1..][k].0 == h;
      assert groups[k + 1].0 == h;
    }
  }

  // ---------------------------------------------------------------------
  // generate_ai_insights

  /** The settings the worker reads. */
  datatype MinerSettings = MinerSettings(
    geminiApiKey: string, geminiModel: string, openaiApiKey: string, openaiModel: string,
    minClusterSize: int)

  /** `_get_ai_client` finds a client when either API key is set. */
  predicate HasClient(s: MinerSettings)
  {
    s.geminiApiKey != "" || s.openaiApiKey != ""
  }

  /** The `ai_model` recorded with each insight: Gemini's when its key is set. */
  function AiModel(s: MinerSettings): (m: string)
    ensures s.geminiApiKey != "" ==> m == s.geminiModel
    ensures s.geminiApiKey == "" ==> m == s.openaiModel
  {
    if s.geminiApiKey != "" then s.geminiModel else s.openaiModel
  }

  /** The reply the worker sees: none at all without a client. */
  function ClientReply(s: MinerSettings, reply: ModelReply): (r: ModelReply)
    ensures !HasClient(s) ==> r.NoClient?
    ensures HasClient(s) ==> r == reply
  {
    if HasClient(s) then reply else NoClient
  }

  datatype Insight = Insight(
    id: string, userId: string, insightType: Json, title: Json, description: Json, confidence: Json,
    evidenceCount: nat, timeRangeStart: Clock.Instant, timeRangeEnd: Clock.Instant,
    aiModel: string, reasoning: string, neo4jNodeId: Option<string>)

  /**
   * What `for data in insights_data` iterates over: the decoded `[`...`]`
   * span of a reply, or None when there is no reply, no span, the decoding
   * fails or the decoded value is not iterable (each of these ends in `[]`).
   */
  function InsightItems(reply: ModelReply, loads: string -> Option<Json>): (r: Option<seq<Json>>)
    ensures !reply.Replied? ==> r.None?
    ensures reply.Replied? && SpanText(reply.text, '[', ']').None? ==> r.None?
    ensures reply.Replied? && SpanText(reply.text, '[', ']').Some? ==>
              var decoded := loads(SpanText(reply.text, '[', ']').value);
              (decoded.None? ==> r.None?)
              && (decoded.Some? ==> (r.Some? <==> Iterate(decoded.value).Ok?))
              && (decoded.Some? && decoded.value.JArr? ==> r == Some(decoded.value.items))
  {
    if !reply.Replied? then None
    else
      var span := SpanText(reply.text, '[', ']');
      if span.None? then None
      else
        var decoded := loads(span.value);
        if decoded.None? then None
        else
          var items := Iterate(decoded.value);
          if items.Err? then None else Some(items.value)
  }

  /** `data.get` needs a dict: any other element raises AttributeError, which is caught. */
  predicate AllObjects(items: seq<Json>)
  {
    forall i :: 0 <= i < |items| ==> items[i].JObj?
  }

  function Reasoning(geoCount: nat, timeCount: nat): string
  {
    "Based on " + NatToString(geoCount) + " location clusters and " + NatToString(timeCount) + " time patterns"
  }

  /**
   * What one insight reads from outside the reply: the fresh `uuid4()` and
   * the two `datetime.utcnow()` calls, for the start and then for the end.
   */
  datatype Stamp = Stamp(id: string, startNow: Clock.Instant, endNow: Clock.Instant)

  /**
   * One insight record, with its id and clock readings taken from `stamp`;
   * it has no `neo4j_node_id` until the graph stores it.
   */
  function InsightOf(data: Dict, userId: string, geoCount: nat, timeCount: nat, aiModel: string, stamp: Stamp): Insight
  {
    Insight(stamp.id, userId, Get(data, "insight_type", JStr("habit")), Get(data, "title", JStr("")),
            Get(data, "description", JStr("")), Get(data, "confidence", JFloat(0.5)),
            geoCount + timeCount, stamp.startNow - Clock.Days(30), stamp.endNow, aiModel, Reasoning(geoCount, timeCount), None)
  }

  /** `make` applied to every element and its index when every element is a dict, else nothing. */
  function MapObjects<T>(items: seq<Json>, make: (nat, Dict) -> T): (r: seq<T>)
    ensures !AllObjects(items) ==> r == []
    ensures AllObjects(items) ==> |r| == |items| && forall i :: 0 <= i < |items| ==> r[i] == make(i, items[i].fields)
  {
    if !AllObjects(items) then [] else seq(|items|, i requires 0 <= i < |items| => make(i, items[i].fields))
  }

  /**
   * `for data in insights_data`: one insight per element when every element
   * is a dict, else none; `stamps(i)` is what the i-th pass reads.
   */
  function InsightsFrom(items: seq<Json>, userId: string, geoCount: nat, timeCount: nat, aiModel: string,
                        stamps: nat -> Stamp): (r: seq<Insight>)
    ensures !AllObjects(items) ==> r == []
    ensures AllObjects(items) ==>
              |r| == |items|
              && forall i :: 0 <= i < |items| ==> r[i] == InsightOf(items[i].fields, userId, geoCount, timeCount, aiModel, stamps(i))
  {
    MapObjects(items, (i, data) => InsightOf(data, userId, geoCount, timeCount, aiModel, stamps(i)))
  }

  /** The insights of a reply: none when it yields nothing to iterate over. */
  function Insights(userId: string, geoCount: nat, timeCount: nat, reply: ModelReply,
                    loads: string -> Option<Json>, aiModel: string, stamps: nat -> Stamp): (r: seq<Insight>)
    ensures InsightItems(reply, loads).None? ==> r == []
    ensures InsightItems(reply, loads).Some? && !AllObjects(InsightItems(reply, loads).value) ==> r == []
    ensures InsightItems(reply, loads).Some? && AllObjects(InsightItems(reply, loads).value) ==>
              var items := InsightItems(reply, loads).value;
              |r| == |items|
              && forall i :: 0 <= i < |items| ==> r[i] == InsightOf(items[i].fields, userId, geoCount, timeCount, aiModel, stamps(i))
  {
    var items := InsightItems(reply, loads);
    if items.None? then [] else InsightsFrom(items.value, userId, geoCount, timeCount, aiModel, stamps)
  }

  method GenerateInsights(userId: string, geoCount: nat, timeCount: nat, reply: ModelReply,
                          loads: string -> Option<Json>, aiModel: string, stamps: nat -> Stamp)
    returns (insights: seq<Insight>)
    ensures insights == Insights(userId, geoCount, timeCount, reply, loads, aiModel, stamps)
  {
    var items := InsightItems(reply, loads);
    if items.None? {
      return [];
    }
    insights := EachObject(items.value, (i, data) => InsightOf(data, userId, geoCount, timeCount, aiModel, stamps(i)));
  }

  /** The loop over the decoded elements; a non-dict element raises and the caught error gives `[]`. */
  method EachObject<T>(items: seq<Json>, make: (nat, Dict) -> T) returns (r: seq<T>)
    ensures r == MapObjects(items, make)
  {
    r := [];
    for i := 0 to |items|
      invariant forall k :: 0 <= k < i ==> items[k].JObj?
      invariant |r| == i
      invariant forall k :: 0 <= k < i ==> r[k] == make(k, items[k].fields)
    {
      if !items[i].JObj? {
        return [];
      }
      r := r + [make(i, items[i].fields)];
    }
  }

  /** Every insight records the fixed defaults for the keys the reply leaves out. */
  lemma InsightDefaults(data: Dict, userId: string, geoCount: nat, timeCount: nat, aiModel: string, stamp: Stamp)
    requires !HasKey(data, "insight_type") && !HasKey(data, "title")
    requires !HasKey(data, "description") && !HasKey(data, "confidence")
    ensures var r := InsightOf(data, userId, geoCount, timeCount, aiModel, stamp);
      r.insightType == JStr("habit") && r.title == JStr("") && r.description == JStr("")
      && r.confidence == JFloat(0.5)
  {
  }

  /**
   * Keys the reply gives are taken as given, and every insight counts all the
   * patterns it rests on. Its range opens 30 days before the first clock
   * reading and closes at the second, so it spans 30 days plus the time
   * between the two readings, and at least 30 days when the clock does not
   * go back.
   */
  lemma InsightFromData(data: Dict, userId: string, geoCount: nat, timeCount: nat, aiModel: string, stamp: Stamp)
    ensures var r := InsightOf(data, userId, geoCount, timeCount, aiModel, stamp);
      (Lookup(data, "title").Some? ==> r.title == Lookup(data, "title").value)
      && (Lookup(data, "insight_type").Some? ==> r.insightType == Lookup(data, "insight_type").value)
      && (Lookup(data, "description").Some? ==> r.description == Lookup(data, "description").value)
      && (Lookup(data, "confidence").Some? ==> r.confidence == Lookup(data, "confidence").value)
      && r.evidenceCount == geoCount + timeCount && r.userId == userId && r.id == stamp.id
      && r.aiModel == aiModel && r.neo4jNodeId.None?
      && r.timeRangeStart == stamp.startNow - Clock.Days(30) && r.timeRangeEnd == stamp.endNow
      && r.timeRangeEnd - r.timeRangeStart == Clock.Days(30) + (stamp.endNow - stamp.startNow)
      && (stamp.startNow <= stamp.endNow ==> r.timeRangeEnd - r.timeRangeStart >= Clock.Days(30))
  {
  }

  /** A reply that is exactly a JSON array of dicts gives one insight per dict, in order. */
  lemma ArrayReply(userId: string, geoCount: nat, timeCount: nat, text: string, loads: string -> Option<Json>,
                   aiModel: string, stamps: nat -> Stamp, objs: seq<Json>)
    requires |text| >= 2 && text[0] == '[' && text[|text| - 1] == ']'
    requires loads(text) == Some(JArr(objs)) && AllObjects(objs)
    ensures var r := Insights(userId, geoCount, timeCount, Replied(text), loads, aiModel, stamps);
      |r| == |objs|
      && forall i :: 0 <= i < |objs| ==> r[i] == InsightOf(objs[i].fields, userId, geoCount, timeCount, aiModel, stamps(i))
  {
    WholeSpan(text, '[', ']');
  }

  /** A decoded value that is a dict (iterating gives its keys) or holds a non-dict element gives no insights. */
  lemma NonObjectItems(userId: string, geoCount: nat, timeCount: nat, text: string, loads: string -> Option<Json>,
                       aiModel: string, stamps: nat -> Stamp, objs: seq<Json>, k: nat)
    requires |text| >= 2 && text[0] == '[' && text[|text| - 1] == ']'
    requires loads(text) == Some(JArr(objs)) && k < |objs| && !objs[k].JObj?
    ensures Insights(userId, geoCount, timeCount, Replied(text), loads, aiModel, stamps) == []
  {
    WholeSpan(text, '[', ']');
  }

  // ---------------------------------------------------------------------
  // run_analysis

  /** `visit_hours_distribution`: the count of each visit hour, under the hour's decimal string. */
  function HourHistogram(hist: seq<(int, nat)>): Json
  {
    JObj(seq(|hist|, i requires 0 <= i < |hist| => (IntToString(hist[i].0), JInt(hist[i].1))))
  }

  function ClusterData(c: LocationCluster): Json
  {
    JObj([("visit_count", JInt(c.visitCount)), ("most_common_hour", JInt(c.mostCommonHour)),
          ("visit_hours_distribution", HourHistogram(c.hourDistribution))])
  }

  /**
   * The dict `analyze_geo_patterns` builds for a cluster, before `user_id`
   * is added and without its fresh `id` entry, which is not modelled; `iso`
   * is the timestamp formatter, `isoformat()`.
   */
  function ClusterDict(c: LocationCluster, iso: Clock.Instant -> string): Dict
  {
    [("pattern_type", JStr("location_cluster")), ("name", JStr(c.name)), ("description", JStr(c.description)),
     ("confidence", JFloat(c.confidence)), ("center_lat", JFloat(c.centerLat)), ("center_lon", JFloat(c.centerLon)),
     ("radius_meters", JFloat(c.radiusMeters)), ("first_seen", JStr(iso(c.firstSeen))),
     ("last_seen", JStr(iso(c.lastSeen))), ("occurrences", JInt(c.occurrences)),
     ("data", ClusterData(c))]
  }

  function RoutineData(r: Routine): Json
  {
    JObj([("hour", JInt(r.hour)), ("avg_points", JFloat(r.avgPoints)), ("days_observed", JInt(r.daysObserved))])
  }

  /** The dict `analyze_time_patterns` builds for a routine, likewise without its `id` entry. */
  function RoutineDict(r: Routine, iso: Clock.Instant -> string): Dict
  {
    [("pattern_type", JStr("routine")), ("name", JStr(r.name)), ("description", JStr(r.description)),
     ("confidence", JFloat(r.confidence)), ("time_pattern", JStr(r.timePattern)),
     ("frequency_per_week", JFloat(r.frequencyPerWeek)), ("first_seen", JStr(iso(r.firstSeen))),
     ("last_seen", JStr(iso(r.lastSeen))), ("occurrences", JInt(r.occurrences)),
     ("data", RoutineData(r))]
  }

  /** `pattern["user_id"] = str(user_id)` on every found pattern, geo ones first. */
  function PatternsFound(geo: seq<LocationCluster>, time: seq<Routine>, userId: string, iso: Clock.Instant -> string)
    : (r: seq<Dict>)
    ensures |r| == |geo| + |time|
    ensures forall i :: 0 <= i < |geo| ==> r[i] == Put(ClusterDict(geo[i], iso), "user_id", JStr(userId))
    ensures forall i :: 0 <= i < |time| ==> r[|geo| + i] == Put(RoutineDict(time[i], iso), "user_id", JStr(userId))
  {
    seq(|geo|, i requires 0 <= i < |geo| => Put(ClusterDict(geo[i], iso), "user_id", JStr(userId)))
    + seq(|time|, i requires 0 <= i < |time| => Put(RoutineDict(time[i], iso), "user_id", JStr(userId)))
  }

  /** `pattern["user_id"] = ...` appends the key: the pattern dicts do not have it yet. */
  lemma ClusterTagged(c: LocationCluster, iso: Clock.Instant -> string, userId: string)
    ensures Put(ClusterDict(c, iso), "user_id", JStr(userId)) == ClusterDict(c, iso) + [("user_id", JStr(userId))]
  {
    var d := ClusterDict(c, iso);
    assert forall i :: 0 <= i < |d| ==> d[i].0 != "user_id";
  }

  // Facts about one tagged dict, each in a lemma of its own: the dict is a
  // literal, and several lookups on it in one context are expensive.

  lemma ClusterComplete(c: LocationCluster, iso: Clock.Instant -> string, userId: string, t: Dict)
    requires t == ClusterDict(c, iso) + [("user_id", JStr(userId))]
    ensures EventStore.PatternRowOf(t).Ok?
  {
    assert t[0].0 == "pattern_type" && t[1].0 == "name" && t[2].0 == "description" && t[3].0 == "confidence";
    assert t[7].0 == "first_seen" && t[8].0 == "last_seen" && t[11].0 == "user_id";
    EventStore.CompleteRow(t);
  }

  lemma ClusterUserId(c: LocationCluster, iso: Clock.Instant -> string, userId: string, t: Dict)
    requires t == ClusterDict(c, iso) + [("user_id", JStr(userId))]
    ensures Lookup(t, "user_id") == Some(JStr(userId))
  {
    LookupFirst(t, "user_id", 11);
  }

  lemma ClusterType(c: LocationCluster, iso: Clock.Instant -> string, userId: string, t: Dict)
    requires t == ClusterDict(c, iso) + [("user_id", JStr(userId))]
    ensures Lookup(t, "pattern_type") == Some(JStr("location_cluster"))
  {
    LookupFirst(t, "pattern_type", 0);
  }

  lemma ClusterOccurrences(c: LocationCluster, iso: Clock.Instant -> string, userId: string, t: Dict)
    requires t == ClusterDict(c, iso) + [("user_id", JStr(userId))]
    ensures Lookup(t, "occurrences") == Some(JInt(c.occurrences))
  {
    LookupFirst(t, "occurrences", 9);
  }

  lemma ClusterRadius(c: LocationCluster, iso: Clock.Instant -> string, userId: string, t: Dict)
    requires t == ClusterDict(c, iso) + [("user_id", JStr(userId))]
    ensures Lookup(t, "radius_meters") == Some(JFloat(c.radiusMeters))
  {
    LookupFirst(t, "radius_meters", 6);
  }

  lemma ClusterAbsent(c: LocationCluster, iso: Clock.Instant -> string, userId: string, t: Dict)
    requires t == ClusterDict(c, iso) + [("user_id", JStr(userId))]
    ensures !HasKey(t, "time_pattern") && !HasKey(t, "frequency_per_week") && !HasKey(t, "is_active")
  {
    assert forall i :: 0 <= i < |t| ==> t[i].0 != "time_pattern" && t[i].0 != "frequency_per_week" && t[i].0 != "is_active";
  }

  /** A tagged cluster dict is a complete pattern row with the store's defaults for the keys it lacks. */
  lemma ClusterRow(c: LocationCluster, iso: Clock.Instant -> string, userId: string)
    ensures var row := EventStore.PatternRowOf(Put(ClusterDict(c, iso), "user_id", JStr(userId)));
      row.Ok? && row.value.userId == userId && row.value.patternType == JStr("location_cluster")
      && row.value.timePattern == JStr("") && row.value.frequencyPerWeek == JInt(0)
      && row.value.occurrences == JInt(c.occurrences) && row.value.isActive == JBool(true)
      && row.value.radius == JFloat(c.radiusMeters)
  {
    var t := ClusterDict(c, iso) + [("user_id", JStr(userId))];
    ClusterTagged(c, iso, userId);
    ClusterComplete(c, iso, userId, t);
    ClusterUserId(c, iso, userId, t);
    ClusterType(c, iso, userId, t);
    ClusterOccurrences(c, iso, userId, t);
    ClusterRadius(c, iso, userId, t);
    ClusterAbsent(c, iso, userId, t);
    EventStore.RowIdentity(t);
    EventStore.RowSchedule(t);
    EventStore.RowCounts(t);
    EventStore.RowPlace(t);
  }

  lemma RoutineTagged(r: Routine, iso: Clock.Instant -> string, userId: string)
    ensures Put(RoutineDict(r, iso), "user_id", JStr(userId)) == RoutineDict(r, iso) + [("user_id", JStr(userId))]
  {
    var d := RoutineDict(r, iso);
    assert forall i :: 0 <= i < |d| ==> d[i].0 != "user_id";
  }

  lemma RoutineComplete(r: Routine, iso: Clock.Instant -> string, userId: string, t: Dict)
    requires t == RoutineDict(r, iso) + [("user_id", JStr(userId))]
    ensures EventStore.PatternRowOf(t).Ok?
  {
    assert t[0].0 == "pattern_type" && t[1].0 == "name" && t[2].0 == "description" && t[3].0 == "confidence";
    assert t[6].0 == "first_seen" && t[7].0 == "last_seen" && t[10].0 == "user_id";
    EventStore.CompleteRow(t);
  }

  lemma RoutineUserId(r: Routine, iso: Clock.Instant -> string, userId: string, t: Dict)
    requires t == RoutineDict(r, iso) + [("user_id", JStr(userId))]
    ensures Lookup(t, "user_id") == Some(JStr(userId))
  {
    LookupFirst(t, "user_id", 10);
  }

  lemma RoutineType(r: Routine, iso: Clock.Instant -> string, userId: string, t: Dict)
    requires t == RoutineDict(r, iso) + [("user_id", JStr(userId))]
    ensures Lookup(t, "pattern_type") == Some(JStr("routine"))
  {
    LookupFirst(t, "pattern_type", 0);
  }

  lemma RoutineCron(r: Routine, iso: Clock.Instant -> string, userId: string, t: Dict)
    requires t == RoutineDict(r, iso) + [("user_id", JStr(userId))]
    ensures Lookup(t, "time_pattern") == Some(JStr(r.timePattern))
  {
    LookupFirst(t, "time_pattern", 4);
  }

  lemma RoutineFrequency(r: Routine, iso: Clock.Instant -> string, userId: string, t: Dict)
    requires t == RoutineDict(r, iso) + [("user_id", JStr(userId))]
    ensures Lookup(t, "frequency_per_week") == Some(JFloat(r.frequencyPerWeek))
  {
    LookupFirst(t, "frequency_per_week", 5);
  }

  lemma RoutineOccurrences(r: Routine, iso: Clock.Instant -> string, userId: string, t: Dict)
    requires t == RoutineDict(r, iso) + [("user_id", JStr(userId))]
    ensures Lookup(t, "occurrences") == Some(JInt(r.occurrences))
  {
    LookupFirst(t, "occurrences", 8);
  }

  lemma RoutineAbsent(r: Routine, iso: Clock.Instant -> string, userId: string, t: Dict)
    requires t == RoutineDict(r, iso) + [("user_id", JStr(userId))]
    ensures !HasKey(t, "center_lat") && !HasKey(t, "radius_meters") && !HasKey(t, "is_active")
  {
    assert forall i :: 0 <= i < |t| ==> t[i].0 != "center_lat" && t[i].0 != "radius_meters" && t[i].0 != "is_active";
  }

  /** A tagged routine dict is a complete pattern row carrying its cron and weekly frequency. */
  lemma RoutineRow(r: Routine, iso: Clock.Instant -> string, userId: string)
    ensures var row := EventStore.PatternRowOf(Put(RoutineDict(r, iso), "user_id", JStr(userId)));
      row.Ok? && row.value.userId == userId && row.value.patternType == JStr("routine")
      && row.value.timePattern == JStr(r.timePattern) && row.value.frequencyPerWeek == JFloat(r.frequencyPerWeek)
      && row.value.occurrences == JInt(r.occurrences) && row.value.isActive == JBool(true)
      && row.value.centerLat == JNull && row.value.radius == JNull
  {
    var t := RoutineDict(r, iso) + [("user_id", JStr(userId))];
    RoutineTagged(r, iso, userId);
    RoutineComplete(r, iso, userId, t);
    RoutineUserId(r, iso, userId, t);
    RoutineType(r, iso, userId, t);
    RoutineCron(r, iso, userId, t);
    RoutineFrequency(r, iso, userId, t);
    RoutineOccurrences(r, iso, userId, t);
    RoutineAbsent(r, iso, userId, t);
    EventStore.RowIdentity(t);
    EventStore.RowSchedule(t);
    EventStore.RowCounts(t);
    EventStore.RowPlace(t);
  }

  // ---------------------------------------------------------------------
  // The analysis run

  datatype Analysis = Analysis(
    userId: string, periodStart: string, periodEnd: string,
    patternsFound: seq<Dict>, insightsGenerated: seq<Insight>)

  /**
   * `run_analysis` over the query results of the period `now - days_back` to
   * `now`: geo patterns, then routines (a ZeroDivisionError escapes), then
   * insights only when some pattern was found, the i-th reading its id and
   * clock from `stamps(i)`. Saving the insights to the graph then tags each
   * with its node id when `graphHasPerson` (see `SaveInsightToGraph`). `iso`
   * formats timestamps the way `isoformat()` does (`Clock.IsoFormat`).
   */
  function AnalysisOf(s: MinerSettings, userId: string, daysBack: int, now: Clock.Instant, stamps: nat -> Stamp,
                      points: seq<GeoPoint>, labels: seq<int>, rows: seq<HourlyRow>, sqrt: real -> real,
                      reply: ModelReply, loads: string -> Option<Json>, graphHasPerson: bool,
                      iso: Clock.Instant -> string)
    : (r: Result<Analysis>)
    requires |points| == |labels| && DbscanLabels(labels)
    ensures r.Err? <==> TimePatterns(rows, daysBack).Err?
    ensures r.Ok? ==> r.value.userId == userId && r.value.periodEnd == iso(now)
    ensures r.Ok? ==> r.value.periodStart == iso(now - Clock.Days(daysBack))
    ensures r.Ok? ==> r.value.patternsFound
                      == PatternsFound(GeoPatterns(points, labels, s.minClusterSize, sqrt), TimePatterns(rows, daysBack).value, userId, iso)
    ensures (r.Ok? && GeoPatterns(points, labels, s.minClusterSize, sqrt) == [] && TimePatterns(rows, daysBack).value == [])
            ==> r.value.insightsGenerated == []
    ensures (r.Ok? && (GeoPatterns(points, labels, s.minClusterSize, sqrt) != [] || TimePatterns(rows, daysBack).value != []))
            ==> var geo := GeoPatterns(points, labels, s.minClusterSize, sqrt);
                var time := TimePatterns(rows, daysBack).value;
                r.value.insightsGenerated
                == GraphInsights(Insights(userId, |geo|, |time|, ClientReply(s, reply), loads, AiModel(s), stamps), graphHasPerson)
  {
    var geo := GeoPatterns(points, labels, s.minClusterSize, sqrt);
    var time :- TimePatterns(rows, daysBack);
    var insights :=
      if geo != [] || time != [] then Insights(userId, |geo|, |time|, ClientReply(s, reply), loads, AiModel(s), stamps)
      else [];
    Ok(Analysis(userId, iso(now - Clock.Days(daysBack)), iso(now), PatternsFound(geo, time, userId, iso),
                GraphInsights(insights, graphHasPerson)))
  }

  predicate Saveable(ds: seq<Dict>)
  {
    forall i :: 0 <= i < |ds| ==> EventStore.PatternRowOf(ds[i]).Ok?
  }

  /** The rows `save_pattern` inserts for the dicts, in order. */
  function SavedRows(ds: seq<Dict>): (r: seq<EventStore.PatternRow>)
    requires Saveable(ds)
    ensures |r| == |ds| && forall i :: 0 <= i < |ds| ==> r[i] == EventStore.PatternRowOf(ds[i]).value
  {
    seq(|ds|, i requires 0 <= i < |ds| => EventStore.PatternRowOf(ds[i]).value)
  }

  /** Every found pattern, once tagged, is a complete row for the store. */
  lemma FoundSaveable(geo: seq<LocationCluster>, time: seq<Routine>, userId: string, iso: Clock.Instant -> string)
    ensures Saveable(PatternsFound(geo, time, userId, iso))
  {
    var found := PatternsFound(geo, time, userId, iso);
    forall i | 0 <= i < |found| ensures EventStore.PatternRowOf(found[i]).Ok?
    {
      if i < |geo| {
        ClusterRow(geo[i], iso, userId);
      } else {
        RoutineRow(time[i - |geo|], iso, userId);
      }
    }
  }

  /** Every found pattern carries the user's id. */
  lemma FoundTagged(geo: seq<LocationCluster>, time: seq<Routine>, userId: string, iso: Clock.Instant -> string)
    ensures var found := PatternsFound(geo, time, userId, iso);
      forall i :: 0 <= i < |found| ==> Lookup(found[i], "user_id") == Some(JStr(userId))
  {
    var found := PatternsFound(geo, time, userId, iso);
    forall i | 0 <= i < |found| ensures Lookup(found[i], "user_id") == Some(JStr(userId))
    {
      if i < |geo| {
        ClusterTagged(geo[i], iso, userId);
        ClusterUserId(geo[i], iso, userId, found[i]);
      } else {
        RoutineTagged(time[i - |geo|], iso, userId);
        RoutineUserId(time[i - |geo|], iso, userId, found[i]);
      }
    }
  }

  /**
   * `run_analysis` against the store. The geo-point query raises first when
   * the store is not connected; otherwise the result is `AnalysisOf`, every
   * found pattern is saved, in order, and then every insight goes to the
   * graph: `habits` are the Habit nodes created, and the store gets the
   * tagged insights' rows.
   */
  method RunAnalysis(store: EventStore.ClickHouse, s: MinerSettings, userId: string, daysBack: int,
                     now: Clock.Instant, stamps: nat -> Stamp, points: seq<GeoPoint>, labels: seq<int>, rows: seq<HourlyRow>,
                     sqrt: real -> real, reply: ModelReply, loads: string -> Option<Json>,
                     graphHasPerson: bool, iso: Clock.Instant -> string)
    returns (r: Result<Analysis>, habits: seq<HabitWrite>)
    requires |points| == |labels| && DbscanLabels(labels)
    modifies store
    ensures store.connected == old(store.connected) && store.events == old(store.events)
    ensures !store.connected ==> r == Err(RuntimeError("ClickHouse not connected")) && store.patterns == old(store.patterns)
    ensures r.Err? ==> habits == [] && store.insights == old(store.insights)
    ensures r.Ok? && !graphHasPerson ==> habits == [] && store.insights == old(store.insights)
    ensures r.Ok? && graphHasPerson ==>
              habits == Habits(userId, r.value.insightsGenerated)
              && store.insights == old(store.insights) + InsightRows(r.value.insightsGenerated)
    ensures store.connected ==> r == AnalysisOf(s, userId, daysBack, now, stamps, points, labels, rows, sqrt, reply, loads, graphHasPerson, iso)
    ensures r.Err? ==> store.patterns == old(store.patterns)
    ensures r.Ok? ==> Saveable(r.value.patternsFound)
                      && store.patterns == old(store.patterns) + SavedRows(r.value.patternsFound)
  {
    if !store.connected {
      return Err(RuntimeError("ClickHouse not connected")), [];
    }
    var geo := AnalyzeGeoPatterns(points, labels, s.minClusterSize, sqrt);
    var time := AnalyzeTimePatterns(rows, daysBack);
    if time.Err? {
      return Err(time.error), [];
    }
    var insights := [];
    if geo != [] || time.value != [] {
      insights := GenerateInsights(userId, |geo|, |time.value|, ClientReply(s, reply), loads, AiModel(s), stamps);
    }
    var found := PatternsFound(geo, time.value, userId, iso);
    FoundSaveable(geo, time.value, userId, iso);
    var saved;
    saved, habits := SaveAll(store, userId, found, insights, graphHasPerson);
    r := Ok(Analysis(userId, iso(now - Clock.Days(daysBack)), iso(now), found, saved));
  }

  /** Steps 4 and 5 against the store: the patterns, then the insights. */
  method SaveAll(store: EventStore.ClickHouse, userId: string, found: seq<Dict>, insights: seq<Insight>,
                 graphHasPerson: bool)
    returns (saved: seq<Insight>, habits: seq<HabitWrite>)
    requires store.connected && Saveable(found)
    modifies store
    ensures store.connected && store.events == old(store.events)
    ensures store.patterns == old(store.patterns) + SavedRows(found)
    ensures saved == GraphInsights(insights, graphHasPerson)
    ensures !graphHasPerson ==> habits == [] && store.insights == old(store.insights)
    ensures graphHasPerson ==> habits == Habits(userId, saved) && store.insights == old(store.insights) + InsightRows(saved)
  {
    SavePatterns(store, found);
    saved, habits := SaveInsights(store, userId, insights, graphHasPerson);
  }

  // ---------------------------------------------------------------------
  // Step 5: insights to the graph

  /** The Habit node, linked by HAS_HABIT from the Person, that `save_insight_to_graph` creates. */
  datatype HabitWrite = HabitWrite(
    personId: string, habitId: string, name: Json, description: Json, confidence: Json,
    insightType: Json, aiModel: string)

  /** The query parameters: the habit takes the insight's id, and its name is the insight's title. */
  function HabitOf(userId: string, i: Insight): (h: HabitWrite)
    ensures h.personId == userId && h.habitId == i.id && h.name == i.title
    ensures h.description == i.description && h.confidence == i.confidence
    ensures h.insightType == i.insightType && h.aiModel == i.aiModel
  {
    HabitWrite(userId, i.id, i.title, i.description, i.confidence, i.insightType, i.aiModel)
  }

  /** `insight["neo4j_node_id"] = record["habit_id"]`: the node's id is the insight's own. */
  function Tagged(i: Insight): (t: Insight)
    ensures t.neo4jNodeId == Some(i.id)
    ensures t.(neo4jNodeId := i.neo4jNodeId) == i
  {
    i.(neo4jNodeId := Some(i.id))
  }

  /**
   * The row `save_insight` inserts. The insight has no `evidence_event_ids`,
   * so that column is empty; `neo4j_node_id` is "" when it was never set.
   */
  function InsightRowOf(i: Insight): (row: EventStore.InsightRow)
    ensures row.userId == i.userId && row.insightType == i.insightType
    ensures i.neo4jNodeId.Some? ==> row.neo4jNodeId == i.neo4jNodeId.value
    ensures i.neo4jNodeId.None? ==> row.neo4jNodeId == ""
    ensures row.title == i.title && row.description == i.description && row.confidence == i.confidence
    ensures row.evidenceEventIds == [] && row.evidenceCount == i.evidenceCount
    ensures row.timeRangeStart == i.timeRangeStart && row.timeRangeEnd == i.timeRangeEnd
    ensures row.aiModel == i.aiModel && row.reasoning == i.reasoning
  {
    EventStore.InsightRow(i.userId, if i.neo4jNodeId.Some? then i.neo4jNodeId.value else "", i.insightType,
                          i.title, i.description, [], i.evidenceCount, i.timeRangeStart, i.timeRangeEnd,
                          i.aiModel, i.confidence, i.reasoning)
  }

  /** The insights as `run_analysis` returns them: tagged exactly when the graph stored them. */
  function GraphInsights(insights: seq<Insight>, graphHasPerson: bool): (r: seq<Insight>)
    ensures |r| == |insights|
    ensures !graphHasPerson ==> r == insights
    ensures graphHasPerson ==> forall k :: 0 <= k < |insights| ==> r[k] == Tagged(insights[k])
  {
    if graphHasPerson then seq(|insights|, k requires 0 <= k < |insights| => Tagged(insights[k])) else insights
  }

  function Habits(userId: string, insights: seq<Insight>): (r: seq<HabitWrite>)
    ensures |r| == |insights| && forall k :: 0 <= k < |insights| ==> r[k] == HabitOf(userId, insights[k])
  {
    seq(|insights|, k requires 0 <= k < |insights| => HabitOf(userId, insights[k]))
  }

  function InsightRows(insights: seq<Insight>): (r: seq<EventStore.InsightRow>)
    ensures |r| == |insights| && forall k :: 0 <= k < |insights| ==> r[k] == InsightRowOf(insights[k])
  {
    seq(|insights|, k requires 0 <= k < |insights| => InsightRowOf(insights[k]))
  }

  /** Tagging keeps every habit parameter, so the habits can be read off the returned insights. */
  lemma HabitOfTagged(userId: string, i: Insight)
    ensures HabitOf(userId, Tagged(i)) == HabitOf(userId, i)
  {
  }

  /** A stored insight's row records the habit's id as its node id. */
  lemma StoredRowNodeId(i: Insight)
    ensures InsightRowOf(Tagged(i)).neo4jNodeId == HabitOf(i.userId, i).habitId
  {
  }

  /**
   * `save_insight_to_graph`. `graphHasPerson` is the graph's answer: whether
   * the session ran and matched the user's Person node, so that CREATE made
   * the Habit and `single()` returned its id. Without it nothing is written
   * and the result is None. With it the habit is created, the insight tagged
   * and saved to the store, and the habit's id returned, unless the store
   * raises; every error is caught.
   */
  method SaveInsightToGraph(store: EventStore.ClickHouse, userId: string, insight: Insight, graphHasPerson: bool)
    returns (r: Option<string>, habit: Option<HabitWrite>, saved: Insight)
    modifies store
    ensures store.connected == old(store.connected) && store.events == old(store.events)
    ensures store.patterns == old(store.patterns)
    ensures !graphHasPerson ==> r.None? && habit.None? && saved == insight && store.insights == old(store.insights)
    ensures graphHasPerson ==> habit == Some(HabitOf(userId, insight)) && saved == Tagged(insight)
    ensures graphHasPerson && store.connected ==>
              r == Some(insight.id) && store.insights == old(store.insights) + [InsightRowOf(Tagged(insight))]
    ensures graphHasPerson && !store.connected ==> r.None? && store.insights == old(store.insights)
  {
    if !graphHasPerson {
      return None, None, insight;
    }
    habit := Some(HabitOf(userId, insight));
    saved := Tagged(insight);
    var stored := store.SaveInsight(InsightRowOf(saved), saved.id);
    if stored.Err? {
      return None, habit, saved;
    }
    r := Some(insight.id);
  }

  /** Step 5: `save_insight_to_graph` on each insight, in order; `saved` is the list after it. */
  method SaveInsights(store: EventStore.ClickHouse, userId: string, insights: seq<Insight>, graphHasPerson: bool)
    returns (saved: seq<Insight>, habits: seq<HabitWrite>)
    requires store.connected
    modifies store
    ensures store.connected && store.events == old(store.events) && store.patterns == old(store.patterns)
    ensures saved == GraphInsights(insights, graphHasPerson)
    ensures !graphHasPerson ==> habits == [] && store.insights == old(store.insights)
    ensures graphHasPerson ==> habits == Habits(userId, saved) && store.insights == old(store.insights) + InsightRows(saved)
  {
    saved := [];
    habits := [];
    ghost var rows: seq<EventStore.InsightRow> := [];
    for i := 0 to |insights|
      invariant store.connected && store.events == old(store.events) && store.patterns == old(store.patterns)
      invariant store.insights == old(store.insights) + rows
      invariant |saved| == i
      invariant forall k :: 0 <= k < i ==> saved[k] == if graphHasPerson then Tagged(insights[k]) else insights[k]
      invariant !graphHasPerson ==> habits == [] && rows == []
      invariant graphHasPerson ==> |habits| == i && |rows| == i
      invariant graphHasPerson ==> forall k :: 0 <= k < i ==> habits[k] == HabitOf(userId, saved[k])
      invariant graphHasPerson ==> forall k :: 0 <= k < i ==> rows[k] == InsightRowOf(saved[k])
    {
      var _, habit, tagged := SaveInsightToGraph(store, userId, insights[i], graphHasPerson);
      if habit.Some? {
        HabitOfTagged(userId, insights[i]);
        habits := habits + [habit.value];
        rows := rows + [InsightRowOf(tagged)];
      }
      saved := saved + [tagged];
    }
  }

  /** Step 4: `save_pattern` on each found pattern, in order. */
  method SavePatterns(store: EventStore.ClickHouse, found: seq<Dict>)
    requires store.connected && Saveable(found)
    modifies store
    ensures store.connected && store.events == old(store.events) && store.insights == old(store.insights)
    ensures store.patterns == old(store.patterns) + SavedRows(found)
  {
    ghost var rows := SavedRows(found);
    for i := 0 to |found|
      invariant store.connected && store.events == old(store.events) && store.insights == old(store.insights)
      invariant store.patterns == old(store.patterns) + rows[..i]
    {
      var saved := store.SavePattern(found[i]);
      PrefixStep(rows, i);
    }
    assert rows[..|found|] == rows;
  }

  /** One more element of a prefix. */
  lemma PrefixStep<T>(s: seq<T>, i: nat)
    requires i < |s|
    ensures s[..i + 1] == s[..i] + [s[i]]
  {
  }

  /** Insights are asked for only when a pattern was found, and never without a client. */
  lemma InsightsNeedPatterns(s: MinerSettings, userId: string, daysBack: int, now: Clock.Instant, stamps: nat -> Stamp,
                             points: seq<GeoPoint>, labels: seq<int>, rows: seq<HourlyRow>, sqrt: real -> real,
                             reply: ModelReply, loads: string -> Option<Json>, graphHasPerson: bool,
                             iso: Clock.Instant -> string)
    requires |points| == |labels| && DbscanLabels(labels)
    ensures var r := AnalysisOf(s, userId, daysBack, now, stamps, points, labels, rows, sqrt, reply, loads, graphHasPerson, iso);
      r.Ok? && (r.value.patternsFound == [] || !HasClient(s)) ==> r.value.insightsGenerated == []
  {
  }

  /** Every found pattern carries the user's id, and the insights count all of them. */
  lemma PatternsTagged(s: MinerSettings, userId: string, daysBack: int, now: Clock.Instant, stamps: nat -> Stamp,
                       points: seq<GeoPoint>, labels: seq<int>, rows: seq<HourlyRow>, sqrt: real -> real,
                       reply: ModelReply, loads: string -> Option<Json>, graphHasPerson: bool,
                       iso: Clock.Instant -> string)
    requires |points| == |labels| && DbscanLabels(labels)
    ensures var r := AnalysisOf(s, userId, daysBack, now, stamps, points, labels, rows, sqrt, reply, loads, graphHasPerson, iso);
      r.Ok? ==>
        (forall i :: 0 <= i < |r.value.patternsFound| ==> Lookup(r.value.patternsFound[i], "user_id") == Some(JStr(userId)))
        && (forall i :: 0 <= i < |r.value.insightsGenerated| ==>
              r.value.insightsGenerated[i].evidenceCount == |r.value.patternsFound|)
  {
    var r := AnalysisOf(s, userId, daysBack, now, stamps, points, labels, rows, sqrt, reply, loads, graphHasPerson, iso);
    if r.Ok? {
      FoundTagged(GeoPatterns(points, labels, s.minClusterSize, sqrt), TimePatterns(rows, daysBack).value,
                  userId, iso);
    }
  }
}
