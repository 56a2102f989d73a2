/**
 * The data computed by `plot_clusters` in src/plot.rs before anything is
 * drawn: the axis bounds, the number of clusters, the points of each
 * cluster's series and the positions of the "X" centroid markers.
 */
module Plot {
  import opened Wrappers
  import opened Housing
  import opened Stats

  // ---------------------------------------------------------------------
  // Axis bounds
  // ---------------------------------------------------------------------

  /** `f64::min` on values that are never NaN. */
  function Min(a: real, b: real): (m: real)
    ensures m <= a && m <= b && (m == a || m == b)
  {
    if b < a then b else a
  }

  /** `f64::max` on values that are never NaN. */
  function Max(a: real, b: real): (m: real)
    ensures m >= a && m >= b && (m == a || m == b)
  {
    if b > a then b else a
  }

  /**
   * The fold `(min, max), v -> (min.min(v), max.max(v))` over `rest`,
   * starting from `acc`.
   */
  function MinMaxFold(acc: (real, real), rest: seq<real>): (r: (real, real))
    ensures r.0 <= acc.0 && acc.1 <= r.1
    ensures r.0 == acc.0 || r.0 in rest
    ensures r.1 == acc.1 || r.1 in rest
    ensures forall i :: 0 <= i < |rest| ==> r.0 <= rest[i] <= r.1
    decreases |rest|
  {
    if |rest| == 0 then acc
    else
      var r := MinMaxFold((Min(acc.0, rest[0]), Max(acc.1, rest[0])), rest[1..]);
      assert forall x :: x in rest[1..] ==> x in rest;
      r
  }

  /** `min_max`: `(0, 0)` for no values, otherwise the fold seeded with the first value. */
  function MinMax(values: seq<real>): (r: (real, real))
    ensures |values| == 0 ==> r == (0.0, 0.0)
    ensures |values| > 0 ==> r.0 in values && r.1 in values && r.0 <= r.1
    ensures forall i :: 0 <= i < |values| ==> r.0 <= values[i] <= r.1
  {
    if |values| == 0 then (0.0, 0.0)
    else
      var r := MinMaxFold((values[0], values[0]), values[1..]);
      assert forall x :: x in values[1..] ==> x in values;
      r
  }

  /** The chart's axis bounds are the column minimum and maximum the scaler finds. */
  lemma MinMaxIsColumnBounds(values: seq<real>)
    requires |values| > 0
    ensures MinMax(values) == (SeqMin(values), SeqMax(values))
  {
    var r := MinMax(values);
    LeastIsUnique(values, r.0, SeqMin(values));
    GreatestIsUnique(values, r.1, SeqMax(values));
  }

  lemma LeastIsUnique(s: seq<real>, a: real, b: real)
    requires a in s && b in s
    requires forall i :: 0 <= i < |s| ==> a <= s[i] && b <= s[i]
    ensures a == b
  {
  }

  lemma GreatestIsUnique(s: seq<real>, a: real, b: real)
    requires a in s && b in s
    requires forall i :: 0 <= i < |s| ==> s[i] <= a && s[i] <= b
    ensures a == b
  {
  }

  // ---------------------------------------------------------------------
  // Number of clusters
  // ---------------------------------------------------------------------

  /** `labels.iter().max()`: the largest label, or nothing for no labels. */
  function MaxLabel(labels: seq<nat>): (m: Option<nat>)
    ensures m.None? <==> |labels| == 0
    ensures m.Some? ==> m.value in labels
    ensures m.Some? ==> forall i :: 0 <= i < |labels| ==> labels[i] <= m.value
  {
    if |labels| == 0 then None
    else
      var last := labels[|labels| - 1];
      var rest := MaxLabel(labels[..|labels| - 1]);
      assert rest.Some? ==> rest.value in labels;
      if rest.Some? && rest.value > last then rest else Some(last)
  }

  /**
   * `k = max_label + 1` with the maximum defaulting to 0: every label is below
   * `k`, and `k - 1` is a label unless there are none, when `k` is 1.
   */
  function ClusterCount(labels: seq<nat>): (k: nat)
    ensures k >= 1
    ensures forall i :: 0 <= i < |labels| ==> labels[i] < k
    ensures |labels| == 0 ==> k == 1
    ensures |labels| > 0 ==> k - 1 in labels
  {
    var maxLabel := match MaxLabel(labels) case Some(m) => m case None => 0;
    maxLabel + 1
  }

  // ---------------------------------------------------------------------
  // Per-cluster points
  // ---------------------------------------------------------------------

  /** How many (property, label) pairs `zip` produces. */
  function Paired(properties: seq<HousingProperty>, labels: seq<nat>): nat
  {
    if |properties| < |labels| then |properties| else |labels|
  }

  /**
   * `properties.iter().zip(labels).filter(lbl == cluster_id).map(point)`:
   * the pairs are those of the shorter sequence's length, peeled off here
   * from the last one.
   */
  function ClusterPoints(properties: seq<HousingProperty>, labels: seq<nat>, clusterId: nat): (points: seq<Point>)
    ensures |points| <= Paired(properties, labels)
    decreases Paired(properties, labels)
  {
    var m := Paired(properties, labels);
    if m == 0 then []
    else
      ClusterPoints(properties[..m - 1], labels[..m - 1], clusterId)
        + if labels[m - 1] == clusterId then [PointOf(properties[m - 1])] else []
  }

  /** The indices labelled `clusterId`, in increasing order. */
  ghost function Members(labels: seq<nat>, clusterId: nat): (idx: seq<nat>)
    ensures forall t :: 0 <= t < |idx| ==> idx[t] < |labels| && labels[idx[t]] == clusterId
    ensures forall t, u :: 0 <= t < u < |idx| ==> idx[t] < idx[u]
    ensures forall j :: 0 <= j < |labels| && labels[j] == clusterId ==> j in idx
  {
    if |labels| == 0 then []
    else
      var last := |labels| - 1;
      var before := Members(labels[..last], clusterId);
      before + if labels[last] == clusterId then [last] else []
  }

  /** The lengths of the point lists of clusters `0..k`. */
  function ClusterSizes(properties: seq<HousingProperty>, labels: seq<nat>, k: nat): seq<nat>
  {
    seq(k, c requires 0 <= c < k => |ClusterPoints(properties, labels, c)|)
  }

  /** Only the first `Paired` entries of each sequence matter to the point list. */
  lemma ClusterPointsOfPrefix(properties: seq<HousingProperty>, labels: seq<nat>, clusterId: nat)
    ensures var m := Paired(properties, labels);
      ClusterPoints(properties, labels, clusterId) == ClusterPoints(properties[..m], labels[..m], clusterId)
  {
    var m := Paired(properties, labels);
    if m > 0 {
      assert properties[..m][..m - 1] == properties[..m - 1];
      assert labels[..m][..m - 1] == labels[..m - 1];
    }
  }

  /** Extending both sequences by one pair appends that pair's point when it has the cluster's label. */
  lemma ClusterPointsStep(properties: seq<HousingProperty>, labels: seq<nat>, i: nat, clusterId: nat)
    requires i < |properties| && i < |labels|
    ensures ClusterPoints(properties[..i + 1], labels[..i + 1], clusterId)
         == ClusterPoints(properties[..i], labels[..i], clusterId)
            + if labels[i] == clusterId then [PointOf(properties[i])] else []
  {
    assert properties[..i + 1][..i] == properties[..i];
    assert labels[..i + 1][..i] == labels[..i];
  }

  /**
   * The point list of a cluster is exactly the positions of the paired
   * properties labelled with it, in their original order.
   */
  lemma {:induction false} ClusterPointsAreMembers(properties: seq<HousingProperty>, labels: seq<nat>, clusterId: nat)
    ensures var m := Paired(properties, labels);
      var idx := Members(labels[..m], clusterId);
      var pts := ClusterPoints(properties, labels, clusterId);
      |pts| == |idx| && forall t :: 0 <= t < |idx| ==> pts[t] == PointOf(properties[idx[t]])
    decreases Paired(properties, labels)
  {
    var m := Paired(properties, labels);
    if m > 0 {
      var p, l := properties[..m - 1], labels[..m - 1];
      ClusterPointsAreMembers(p, l, clusterId);
      assert Paired(p, l) == m - 1;
      assert ClusterPoints(properties, labels, clusterId)
          == ClusterPoints(p, l, clusterId) + if labels[m - 1] == clusterId then [PointOf(properties[m - 1])] else [];
      assert p[..m - 1] == p && l[..m - 1] == l;
      assert labels[..m][..m - 1] == l;
    }
  }

  /** A cluster's point list has one entry per paired label equal to its id. */
  lemma {:induction false} ClusterPointsCount(properties: seq<HousingProperty>, labels: seq<nat>, clusterId: nat)
    ensures |ClusterPoints(properties, labels, clusterId)| == multiset(labels[..Paired(properties, labels)])[clusterId]
    decreases Paired(properties, labels)
  {
    var m := Paired(properties, labels);
    if m > 0 {
      var p, l := properties[..m - 1], labels[..m - 1];
      ClusterPointsCount(p, l, clusterId);
      assert Paired(p, l) == m - 1 && l[..m - 1] == l;
      assert labels[..m] == l + [labels[m - 1]];
    }
  }

  /**
   * With every paired label below `k`, the point lists of clusters `0..k`
   * split the paired properties: each paired index belongs to its own
   * label's list and to no other, and the list lengths add up to the number
   * of pairs.
   */
  lemma ClusterPointsPartition(properties: seq<HousingProperty>, labels: seq<nat>, k: nat)
    requires forall i :: 0 <= i < Paired(properties, labels) ==> labels[i] < k
    ensures var m := Paired(properties, labels);
      forall j :: 0 <= j < m ==> j in Members(labels[..m], labels[j])
    ensures var m := Paired(properties, labels);
      forall j, c :: 0 <= j < m && c != labels[j] ==> j !in Members(labels[..m], c)
    ensures NatSum(ClusterSizes(properties, labels, k)) == Paired(properties, labels)
  {
    var m := Paired(properties, labels);
    var prefix := labels[..m];
    forall c | 0 <= c < k
      ensures |ClusterPoints(properties, labels, c)| == Occurrences(prefix, k)[c]
    {
      ClusterPointsCount(properties, labels, c);
    }
    assert ClusterSizes(properties, labels, k) == Occurrences(prefix, k);
    OccurrencesSum(prefix, k);
  }

  // ---------------------------------------------------------------------
  // Centroid markers
  // ---------------------------------------------------------------------

  /** The first coordinates of a list of points. */
  function Xs(points: seq<Point>): seq<real>
  {
    seq(|points|, j requires 0 <= j < |points| => points[j].0)
  }

  /** The second coordinates of a list of points. */
  function Ys(points: seq<Point>): seq<real>
  {
    seq(|points|, j requires 0 <= j < |points| => points[j].1)
  }

  /** Componentwise sum of a list of points. */
  function PointSum(points: seq<Point>): Point
  {
    (RealSum(Xs(points)), RealSum(Ys(points)))
  }

  lemma PointSumAppend(points: seq<Point>, p: Point)
    ensures PointSum(points + [p]) == (PointSum(points).0 + p.0, PointSum(points).1 + p.1)
  {
    assert Xs(points + [p]) == Xs(points) + [p.0];
    assert Ys(points + [p]) == Ys(points) + [p.1];
    RealSumAppend(Xs(points), p.0);
    RealSumAppend(Ys(points), p.1);
  }

  /** `sums` and `counts` hold the size and coordinate sum of every cluster's points among the first `i` pairs. */
  ghost predicate TalliedUpTo(properties: seq<HousingProperty>, labels: seq<nat>, i: nat, sums: seq<Point>, counts: seq<nat>)
    requires i <= |properties| && i <= |labels|
  {
    && |sums| == |counts|
    && forall c :: 0 <= c < |sums| ==>
         counts[c] == |ClusterPoints(properties[..i], labels[..i], c)|
         && sums[c] == PointSum(ClusterPoints(properties[..i], labels[..i], c))
  }

  /** One turn of the tally loop keeps `TalliedUpTo`. */
  lemma TallyStep(properties: seq<HousingProperty>, labels: seq<nat>, i: nat, sums: seq<Point>, counts: seq<nat>)
    requires i < |properties| && i < |labels| && labels[i] < |sums|
    requires TalliedUpTo(properties, labels, i, sums, counts)
    ensures var lbl, p := labels[i], PointOf(properties[i]);
      TalliedUpTo(properties, labels, i + 1,
                  sums[lbl := (sums[lbl].0 + p.0, sums[lbl].1 + p.1)], counts[lbl := counts[lbl] + 1])
  {
    var lbl, p := labels[i], PointOf(properties[i]);
    var sums', counts' := sums[lbl := (sums[lbl].0 + p.0, sums[lbl].1 + p.1)], counts[lbl := counts[lbl] + 1];
    forall c | 0 <= c < |sums|
      ensures counts'[c] == |ClusterPoints(properties[..i + 1], labels[..i + 1], c)|
      ensures sums'[c] == PointSum(ClusterPoints(properties[..i + 1], labels[..i + 1], c))
    {
      var before := ClusterPoints(properties[..i], labels[..i], c);
      ClusterPointsStep(properties, labels, i, c);
      if c == lbl {
        PointSumAppend(before, p);
      } else {
        assert ClusterPoints(properties[..i + 1], labels[..i + 1], c) == before;
      }
    }
  }

  /**
   * The tally loop: for each paired (property, label), add its position to
   * `sums[label]` and one to `counts[label]`. Afterwards `counts[c]` and
   * `sums[c]` are the size and the coordinate sum of cluster `c`'s point
   * list, and the counts add up to the number of pairs.
   */
  method CentroidTally(properties: seq<HousingProperty>, labels: seq<nat>, k: nat)
    returns (sums: seq<Point>, counts: seq<nat>)
    requires forall i :: 0 <= i < Paired(properties, labels) ==> labels[i] < k
    ensures |sums| == k && |counts| == k
    ensures forall c :: 0 <= c < k ==>
              counts[c] == |ClusterPoints(properties, labels, c)| && sums[c] == PointSum(ClusterPoints(properties, labels, c))
    ensures NatSum(counts) == Paired(properties, labels)
  {
    var m := Paired(properties, labels);
    sums := seq(k, c => (0.0, 0.0));
    counts := seq(k, c => 0);
    for i := 0 to m
      invariant |sums| == k
      invariant TalliedUpTo(properties, labels, i, sums, counts)
    {
      var lbl := labels[i];
      TallyStep(properties, labels, i, sums, counts);
      sums := sums[lbl := (sums[lbl].0 + properties[i].totalUnits as int as real,
                           sums[lbl].1 + properties[i].subsidyCount as int as real)];
      counts := counts[lbl := counts[lbl] + 1];
    }
    forall c | 0 <= c < k
      ensures ClusterPoints(properties, labels, c) == ClusterPoints(properties[..m], labels[..m], c)
    {
      ClusterPointsOfPrefix(properties, labels, c);
    }
    ClusterPointsPartition(properties, labels, k);
    assert counts == ClusterSizes(properties, labels, k);
  }

  /** The marker position `sums[c] / counts[c]`; an empty cluster (a NaN position in `f64`) has none. */
  function Marker(sum: Point, count: nat): (marker: Option<Point>)
    ensures marker.Some? <==> count > 0
    ensures marker.Some? ==> marker.value.0 * count as real == sum.0 && marker.value.1 * count as real == sum.1
  {
    if count == 0 then None else Some((sum.0 / count as real, sum.1 / count as real))
  }

  /** The marker of a non-empty cluster lies within the bounding box of that cluster's points. */
  lemma MarkerWithinCluster(points: seq<Point>)
    requires |points| > 0
    ensures Marker(PointSum(points), |points|).Some?
    ensures var x := Marker(PointSum(points), |points|).value;
      && SeqMin(Xs(points)) <= x.0 <= SeqMax(Xs(points))
      && SeqMin(Ys(points)) <= x.1 <= SeqMax(Ys(points))
  {
    MeanWithinBounds(Xs(points));
    MeanWithinBounds(Ys(points));
  }

  // ---------------------------------------------------------------------
  // plot_clusters, without the drawing
  // ---------------------------------------------------------------------

  /** Everything `plot_clusters` computes and hands to the drawing library. */
  datatype PlotData = PlotData(
    xBounds: (real, real),
    yBounds: (real, real),
    k: nat,
    series: seq<seq<Point>>,
    markers: seq<Option<Point>>)

  /**
   * Axis bounds from the two columns, `k` from the labels, one point series
   * per cluster, and one centroid marker per cluster.
   */
  method PlotClusters(properties: seq<HousingProperty>, labels: seq<nat>) returns (plot: PlotData)
    ensures plot.xBounds == MinMax(Column(properties, 0)) && plot.yBounds == MinMax(Column(properties, 1))
    ensures plot.k == ClusterCount(labels)
    ensures |plot.series| == plot.k && |plot.markers| == plot.k
    ensures forall c :: 0 <= c < plot.k ==> plot.series[c] == ClusterPoints(properties, labels, c)
    ensures forall c :: 0 <= c < plot.k ==> plot.markers[c] == Marker(PointSum(plot.series[c]), |plot.series[c]|)
    ensures forall c :: 0 <= c < plot.k ==> (plot.markers[c].Some? <==> plot.series[c] != [])
  {
    var xBounds := MinMax(Column(properties, 0));
    var yBounds := MinMax(Column(properties, 1));
    var k := ClusterCount(labels);

    var series := ClusterSeries(properties, labels, k);
    var sums, counts := CentroidTally(properties, labels, k);
    var markers := CentroidMarkers(sums, counts);
    assert forall c :: 0 <= c < k ==> sums[c] == PointSum(series[c]) && counts[c] == |series[c]|;
    plot := PlotData(xBounds, yBounds, k, series, markers);
  }

  /** The series loop: the point list of each cluster `0..k`, in cluster order. */
  method ClusterSeries(properties: seq<HousingProperty>, labels: seq<nat>, k: nat) returns (series: seq<seq<Point>>)
    ensures |series| == k
    ensures forall c :: 0 <= c < k ==> series[c] == ClusterPoints(properties, labels, c)
  {
    series := [];
    for clusterId := 0 to k
      invariant |series| == clusterId
      invariant forall c :: 0 <= c < clusterId ==> series[c] == ClusterPoints(properties, labels, c)
    {
      var pts := ClusterPoints(properties, labels, clusterId);
      series := series + [pts];
    }
  }

  /**
   * The marker loop: one position `sums[i] / counts[i]` per cluster, none for
   * an empty cluster. A non-empty cluster's marker is the mean of its points,
   * inside their bounding box (MarkerWithinCluster).
   */
  method CentroidMarkers(sums: seq<Point>, counts: seq<nat>) returns (markers: seq<Option<Point>>)
    requires |sums| == |counts|
    ensures |markers| == |sums|
    ensures forall c :: 0 <= c < |sums| ==> markers[c] == Marker(sums[c], counts[c])
    ensures forall c :: 0 <= c < |sums| ==> (markers[c].Some? <==> counts[c] > 0)
  {
    markers := [];
    for i := 0 to |sums|
      invariant |markers| == i
      invariant forall c :: 0 <= c < i ==> markers[c] == Marker(sums[c], counts[c])
    {
      markers := markers + [Marker(sums[i], counts[i])];
    }
  }
}
