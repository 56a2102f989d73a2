/**
 * The data handling of src/clustering.rs around the k-means call: the
 * min–max feature scaler, the de-scaling of centroids, and the per-cluster
 * size and owner-type tallies. The k-means fit itself belongs to a foreign
 * library and enters the model as an input (`KMeansFit`).
 */
module Clustering {
  import opened Wrappers
  import opened Housing
  import opened Stats

  // ---------------------------------------------------------------------
  // Feature scaler
  // ---------------------------------------------------------------------

  /** `max - min` of a non-empty column: what the scaler stores in `ranges`. */
  function Range(column: seq<real>): real
    requires |column| > 0
  {
    SeqMax(column) - SeqMin(column)
  }

  /**
   * The value the scaler leaves in a cell holding raw value `v`: rescaled to
   * `(v - min) / range` when the column's range is positive, and left as it
   * was otherwise.
   */
  function Scale(v: real, min: real, range: real): (x: real)
    ensures range > 0.0 ==> x * range + min == v
    ensures range <= 0.0 ==> x == v
  {
    if range > 0.0 then (v - min) / range else v
  }

  /** The inverse mapping applied to centroid coordinates: `c * range + min`. */
  function Denormalize(c: real, min: real, range: real): (v: real)
    ensures range > 0.0 ==> (v - min) / range == c
  {
    c * range + min
  }

  /** Column `col` of a matrix with two columns, top to bottom. */
  ghost function MatrixColumn(data: array2<real>, col: nat): seq<real>
    reads data
    requires col < data.Length1
  {
    seq(data.Length0, r requires 0 <= r < data.Length0 reads data => data[r, col])
  }

  /**
   * Builds the n×2 feature matrix (column 0 `total_units`, column 1
   * `subsidy_count`), finds each column's minimum and maximum, and rescales
   * every column whose range is positive in place.
   */
  method ToNdarrayWithScales(properties: seq<HousingProperty>)
    returns (data: array2<real>, mins: seq<real>, ranges: seq<real>)
    requires |properties| > 0
    ensures fresh(data)
    ensures data.Length0 == |properties| && data.Length1 == FeatureCount
    ensures |mins| == FeatureCount && |ranges| == FeatureCount
    ensures forall col :: 0 <= col < FeatureCount ==>
              mins[col] == SeqMin(Column(properties, col)) && ranges[col] == Range(Column(properties, col))
    ensures forall i, col :: 0 <= i < |properties| && 0 <= col < FeatureCount ==>
              data[i, col] == Scale(Column(properties, col)[i], mins[col], ranges[col])
  {
    data := FillRawValues(properties);
    var maxs;
    mins, maxs := ColumnBounds(data);
    assert forall col :: 0 <= col < FeatureCount ==> MatrixColumn(data, col) == Column(properties, col);
    ranges := ScaleColumns(data, mins, maxs);
  }

  /** Step (1): a fresh n×2 matrix holding each record's raw features, row by row. */
  method FillRawValues(properties: seq<HousingProperty>) returns (data: array2<real>)
    ensures fresh(data)
    ensures data.Length0 == |properties| && data.Length1 == FeatureCount
    ensures forall i, col :: 0 <= i < |properties| && 0 <= col < FeatureCount ==>
              data[i, col] == Column(properties, col)[i]
  {
    var n := |properties|;
    data := new real[n, FeatureCount]((i, j) => 0.0);
    for i := 0 to n
      invariant forall r, col :: 0 <= r < i && 0 <= col < FeatureCount ==>
                  data[r, col] == Column(properties, col)[r]
    {
      data[i, 0] := properties[i].totalUnits as int as real;
      data[i, 1] := properties[i].subsidyCount as int as real;
    }
  }

  /**
   * Step (2): the minimum and maximum of each column. Row 0 stands in for the
   * `+inf` / `-inf` starting values, which is why the matrix must have a row.
   */
  method ColumnBounds(data: array2<real>) returns (mins: seq<real>, maxs: seq<real>)
    requires data.Length0 > 0 && data.Length1 == FeatureCount
    ensures |mins| == FeatureCount && |maxs| == FeatureCount
    ensures forall col :: 0 <= col < FeatureCount ==>
              mins[col] == SeqMin(MatrixColumn(data, col)) && maxs[col] == SeqMax(MatrixColumn(data, col))
  {
    mins := [data[0, 0], data[0, 1]];
    maxs := [data[0, 0], data[0, 1]];
    for col := 0 to FeatureCount
      invariant |mins| == FeatureCount && |maxs| == FeatureCount
      invariant forall c :: 0 <= c < col ==>
                  mins[c] == SeqMin(MatrixColumn(data, c)) && maxs[c] == SeqMax(MatrixColumn(data, c))
      invariant forall c :: col <= c < FeatureCount ==> mins[c] == data[0, c] && maxs[c] == data[0, c]
    {
      var lo, hi := ColumnPass(data, col, mins[col], maxs[col]);
      mins, maxs := mins[col := lo], maxs[col := hi];
    }
  }

  /**
   * One pass over column `col`, starting from that column's first value:
   * `if v < min { min = v }` and `if v > max { max = v }` for every row.
   */
  method ColumnPass(data: array2<real>, col: nat, min0: real, max0: real) returns (min: real, max: real)
    requires data.Length0 > 0 && col < data.Length1
    requires min0 == data[0, col] && max0 == data[0, col]
    ensures min == SeqMin(MatrixColumn(data, col)) && max == SeqMax(MatrixColumn(data, col))
  {
    ghost var column := MatrixColumn(data, col);
    min, max := min0, max0;
    for i := 0 to data.Length0
      invariant min == SeqMin(column[..if i == 0 then 1 else i])
      invariant max == SeqMax(column[..if i == 0 then 1 else i])
    {
      var v := data[i, col];
      if i > 0 {
        assert column[..i + 1][..i] == column[..i];
      }
      if v < min { min := v; }
      if v > max { max := v; }
    }
    assert column[..data.Length0] == column;
  }

  /**
   * Step (3): stores `range = max - min` per column and rescales, in place,
   * every column whose range is positive; a column with range 0 keeps its
   * values.
   */
  method ScaleColumns(data: array2<real>, mins: seq<real>, maxs: seq<real>) returns (ranges: seq<real>)
    requires data.Length1 == FeatureCount && |mins| == FeatureCount && |maxs| == FeatureCount
    modifies data
    ensures |ranges| == FeatureCount
    ensures forall c :: 0 <= c < FeatureCount ==> ranges[c] == maxs[c] - mins[c]
    ensures forall r, c :: 0 <= r < data.Length0 && 0 <= c < FeatureCount ==>
              data[r, c] == Scale(old(data[r, c]), mins[c], ranges[c])
  {
    ranges := [0.0, 0.0];
    for col := 0 to FeatureCount
      invariant |ranges| == FeatureCount
      invariant forall c :: 0 <= c < col ==> ranges[c] == maxs[c] - mins[c]
      invariant forall r, c :: 0 <= r < data.Length0 && 0 <= c < col ==>
                  data[r, c] == Scale(old(data[r, c]), mins[c], ranges[c])
      invariant forall r, c :: 0 <= r < data.Length0 && col <= c < FeatureCount ==> data[r, c] == old(data[r, c])
    {
      var range := maxs[col] - mins[col];
      ranges := ranges[col := range];
      if range > 0.0 {
        ScaleColumn(data, col, mins[col], range);
      }
    }
  }

  /** The `iter_mut` pass over one column: `x = (x - min) / range`, other columns untouched. */
  method ScaleColumn(data: array2<real>, col: nat, min: real, range: real)
    requires col < data.Length1 && range > 0.0
    modifies data
    ensures forall r, c :: 0 <= r < data.Length0 && 0 <= c < data.Length1 ==>
              data[r, c] == if c == col then Scale(old(data[r, c]), min, range) else old(data[r, c])
  {
    for i := 0 to data.Length0
      invariant forall r, c :: 0 <= r < data.Length0 && 0 <= c < data.Length1 ==>
                  data[r, c] == if c == col && r < i then Scale(old(data[r, c]), min, range) else old(data[r, c])
    {
      data[i, col] := (data[i, col] - min) / range;
    }
  }

  // Properties of the scaling, stated for one column with its own min and range

  /** Scaling a value `v` of a column with minimum `min` and positive `range` (value level). */
  lemma ScaleValue(v: real, min: real, range: real)
    requires range > 0.0
    ensures Denormalize(Scale(v, min, range), min, range) == v
    ensures min <= v <= min + range ==> 0.0 <= Scale(v, min, range) <= 1.0
    ensures v == min ==> Scale(v, min, range) == 0.0
    ensures v == min + range ==> Scale(v, min, range) == 1.0
  {
    var q := (v - min) / range;
    assert q * range == v - min;
    if min <= v <= min + range {
      QuotientBounds(v - min, range, 0.0, 1.0);
    }
    if v == min + range {
      assert q == range / range == 1.0;
    }
  }

  /** Division by a positive range keeps the order of two values. */
  lemma DivisionMonotone(x: real, y: real, range: real)
    requires range > 0.0 && x <= y
    ensures x / range <= y / range
  {
  }

  /** A coefficient in `[0, 1]` de-scales into `[min, min + range]` (value level). */
  lemma DenormalizeValue(c: real, min: real, range: real)
    requires 0.0 <= c <= 1.0 && range >= 0.0
    ensures min <= Denormalize(c, min, range) <= min + range
  {
    ProductNonNegative(c, range);
    ProductNonNegative(1.0 - c, range);
    assert (1.0 - c) * range == range - c * range;
  }

  lemma ProductNonNegative(a: real, b: real)
    requires a >= 0.0 && b >= 0.0
    ensures a * b >= 0.0
  {
  }

  /** With a positive range every scaled value lies in `[0, 1]`. */
  lemma ScaledWithinUnitInterval(column: seq<real>, i: nat)
    requires i < |column| && Range(column) > 0.0
    ensures 0.0 <= Scale(column[i], SeqMin(column), Range(column)) <= 1.0
  {
    ScaleValue(column[i], SeqMin(column), Range(column));
  }

  /**
   * With a positive range a row holding the column minimum scales to exactly
   * 0 and a row holding the maximum to exactly 1; both rows exist.
   */
  lemma ScaleAttainsEndpoints(column: seq<real>)
    requires |column| > 0 && Range(column) > 0.0
    ensures exists i :: 0 <= i < |column| && Scale(column[i], SeqMin(column), Range(column)) == 0.0
    ensures exists j :: 0 <= j < |column| && Scale(column[j], SeqMin(column), Range(column)) == 1.0
  {
    var lo, r := SeqMin(column), Range(column);
    var i :| 0 <= i < |column| && column[i] == lo;
    var j :| 0 <= j < |column| && column[j] == SeqMax(column);
    ScaleValue(column[i], lo, r);
    ScaleValue(column[j], lo, r);
  }

  /** A constant column (range 0) keeps every raw value, and each of them is the column's minimum. */
  lemma ConstantColumnUnchanged(column: seq<real>, i: nat)
    requires i < |column| && Range(column) == 0.0
    ensures Scale(column[i], SeqMin(column), Range(column)) == column[i] == SeqMin(column)
  {
  }

  /** Scaling never reorders two values of a column. */
  lemma ScaleMonotone(column: seq<real>, i: nat, j: nat)
    requires i < |column| && j < |column| && column[i] <= column[j]
    ensures Scale(column[i], SeqMin(column), Range(column)) <= Scale(column[j], SeqMin(column), Range(column))
  {
    ScaleValueMonotone(column[i], column[j], SeqMin(column), Range(column));
  }

  /** Scaling with a non-negative range never reorders two values (value level). */
  lemma ScaleValueMonotone(v: real, w: real, min: real, range: real)
    requires range >= 0.0 && v <= w
    ensures Scale(v, min, range) <= Scale(w, min, range)
  {
    if range > 0.0 {
      DivisionMonotone(v - min, w - min, range);
    }
  }

  /**
   * De-scaling a scaled value of a column with that column's min and range
   * gives back the raw value, whether the column was rescaled or left as it was.
   */
  lemma DenormalizeInvertsScale(column: seq<real>, i: nat)
    requires i < |column|
    ensures Denormalize(Scale(column[i], SeqMin(column), Range(column)), SeqMin(column), Range(column)) == column[i]
  {
    var lo, r := SeqMin(column), Range(column);
    if r > 0.0 {
      ScaleValue(column[i], lo, r);
    } else {
      assert column[i] == lo;
      assert Denormalize(column[i], lo, 0.0) == lo;
    }
  }

  /** A centroid coordinate in `[0, 1]` de-scales to a value between the column's minimum and maximum. */
  lemma DenormalizeWithinColumn(column: seq<real>, c: real)
    requires |column| > 0 && 0.0 <= c <= 1.0
    ensures SeqMin(column) <= Denormalize(c, SeqMin(column), Range(column)) <= SeqMax(column)
  {
    DenormalizeValue(c, SeqMin(column), Range(column));
  }

  // ---------------------------------------------------------------------
  // Cluster reporter
  // ---------------------------------------------------------------------

  /** The inputs handed over by the k-means library: labels and normalised centroids, or a failed fit. */
  datatype KMeansFit = Fitted(labels: seq<nat>, centroids: seq<Point>) | FitFailed(reason: string)

  /** What `cluster_properties` computes: its returned labels and the values it reports. */
  datatype ClusterReport = ClusterReport(
    labels: seq<nat>,
    centroids: seq<Point>,
    counts: seq<nat>,
    dist: seq<map<string, nat>>)

  /** De-scales each centroid, coordinate by coordinate, with the scaler's mins and ranges. */
  method DenormalizeCentroids(centroids: seq<Point>, mins: seq<real>, ranges: seq<real>)
    returns (raw: seq<Point>)
    requires |mins| == FeatureCount && |ranges| == FeatureCount
    ensures |raw| == |centroids|
    ensures forall c :: 0 <= c < |centroids| ==>
              raw[c] == (Denormalize(centroids[c].0, mins[0], ranges[0]), Denormalize(centroids[c].1, mins[1], ranges[1]))
  {
    raw := [];
    for i := 0 to |centroids|
      invariant |raw| == i
      invariant forall c :: 0 <= c < i ==>
                  raw[c] == (Denormalize(centroids[c].0, mins[0], ranges[0]), Denormalize(centroids[c].1, mins[1], ranges[1]))
    {
      var units := Denormalize(centroids[i].0, mins[0], ranges[0]);
      var subs := Denormalize(centroids[i].1, mins[1], ranges[1]);
      raw := raw + [(units, subs)];
    }
  }

  /** Cluster sizes: `counts[c]` is the number of labels equal to `c`; they add up to the number of labels. */
  method CountClusterSizes(labels: seq<nat>, k: nat) returns (counts: seq<nat>)
    requires forall i :: 0 <= i < |labels| ==> labels[i] < k
    ensures |counts| == k
    ensures forall c :: 0 <= c < k ==> counts[c] == multiset(labels)[c]
    ensures NatSum(counts) == |labels|
  {
    counts := seq(k, c => 0);
    for i := 0 to |labels|
      invariant counts == Occurrences(labels[..i], k)
    {
      var lbl := labels[i];
      assert labels[..i + 1] == labels[..i] + [lbl];
      OccurrencesAppend(labels[..i], lbl, k);
      counts := counts[lbl := counts[lbl] + 1];
    }
    assert labels[..|labels|] == labels;
    OccurrencesSum(labels, k);
  }

  /** The owner types of the records labelled `c`, one per record, over the labelled prefix. */
  function OwnersOf(properties: seq<HousingProperty>, labels: seq<nat>, c: nat): multiset<string>
    requires |labels| <= |properties|
  {
    if |labels| == 0 then multiset{}
    else
      var last := |labels| - 1;
      OwnersOf(properties, labels[..last], c)
        + if labels[last] == c then multiset{properties[last].ownerType} else multiset{}
  }

  /** The indices labelled `c` whose record has owner type `o`. */
  ghost function IndicesWith(properties: seq<HousingProperty>, labels: seq<nat>, c: nat, o: string): set<nat>
    requires |labels| <= |properties|
  {
    set idx | 0 <= idx < |labels| && labels[idx] == c && properties[idx].ownerType == o
  }

  /** A multiset of owner types as the map `dist[c]` holds it: only owner types that occur are keys. */
  function OwnerMap(owners: multiset<string>): map<string, nat>
  {
    map o | o in owners :: owners[o]
  }

  /** `*m.entry(o).or_insert(0) += 1` */
  function Bump(m: map<string, nat>, o: string): (b: map<string, nat>)
    ensures b.Keys == m.Keys + {o}
    ensures b[o] == (if o in m then m[o] else 0) + 1
    ensures forall k :: k in m && k != o ==> b[k] == m[k]
  {
    if o in m then m[o := m[o] + 1] else m[o := 1]
  }

  /** Some key of a non-empty map. */
  ghost function SomeKey(m: map<string, nat>): (o: string)
    requires |m| > 0
    ensures o in m
  {
    assert m.Keys != {} by { assert |m.Keys| == |m|; }
    var o :| o in m; o
  }

  lemma RemoveShrinks(m: map<string, nat>, o: string)
    requires o in m
    ensures |m - {o}| == |m| - 1
  {
  }

  /** Sum of the values of a map. */
  ghost function MapTotal(m: map<string, nat>): nat
    decreases |m|
  {
    if |m| == 0 then 0
    else
      var o := SomeKey(m);
      RemoveShrinks(m, o);
      m[o] + MapTotal(m - {o})
  }

  /** Owner-type tallies per cluster: `dist[c]` is the multiset of owner types of the records labelled `c`. */
  method OwnerDistribution(properties: seq<HousingProperty>, labels: seq<nat>, k: nat)
    returns (dist: seq<map<string, nat>>)
    requires |labels| <= |properties|
    requires forall i :: 0 <= i < |labels| ==> labels[i] < k
    ensures |dist| == k
    ensures forall c :: 0 <= c < k ==> dist[c] == OwnerMap(OwnersOf(properties, labels, c))
  {
    dist := seq(k, c => map[]);
    for idx := 0 to |labels|
      invariant |dist| == k
      invariant forall c :: 0 <= c < k ==> dist[c] == OwnerMap(OwnersOf(properties, labels[..idx], c))
    {
      var lbl := labels[idx];
      var owner := properties[idx].ownerType;
      assert labels[..idx + 1][..idx] == labels[..idx];
      OwnerMapAdd(OwnersOf(properties, labels[..idx], lbl), owner);
      dist := dist[lbl := Bump(dist[lbl], owner)];
    }
    assert labels[..|labels|] == labels;
  }

  /** Adding one owner to the multiset bumps its entry in the map. */
  lemma OwnerMapAdd(owners: multiset<string>, o: string)
    ensures OwnerMap(owners + multiset{o}) == Bump(OwnerMap(owners), o)
  {
  }

  /** `dist[c][o]` counts exactly the records with label `c` and owner type `o`. */
  lemma {:induction false} OwnersOfCountsIndices(properties: seq<HousingProperty>, labels: seq<nat>, c: nat, o: string)
    requires |labels| <= |properties|
    ensures OwnersOf(properties, labels, c)[o] == |IndicesWith(properties, labels, c, o)|
  {
    if |labels| > 0 {
      var last := |labels| - 1;
      OwnersOfCountsIndices(properties, labels[..last], c, o);
      var before := IndicesWith(properties, labels[..last], c, o);
      if labels[last] == c && properties[last].ownerType == o {
        assert IndicesWith(properties, labels, c, o) == before + {last};
      } else {
        assert IndicesWith(properties, labels, c, o) == before;
      }
    }
  }

  /** Cluster `c` has as many owner entries as records labelled `c`. */
  lemma {:induction false} OwnersOfSize(properties: seq<HousingProperty>, labels: seq<nat>, c: nat)
    requires |labels| <= |properties|
    ensures |OwnersOf(properties, labels, c)| == multiset(labels)[c]
  {
    if |labels| > 0 {
      var last := |labels| - 1;
      OwnersOfSize(properties, labels[..last], c);
      assert labels == labels[..last] + [labels[last]];
    }
  }

  /** Removing a key takes its value out of the total, whichever key `MapTotal` picked first. */
  lemma {:induction false} MapTotalRemove(m: map<string, nat>, o: string)
    requires o in m
    ensures MapTotal(m) == m[o] + MapTotal(m - {o})
    decreases |m|
  {
    var x := SomeKey(m);
    assert MapTotal(m) == m[x] + MapTotal(m - {x});
    if x != o {
      RemoveShrinks(m, x);
      RemoveShrinks(m, o);
      MapTotalRemove(m - {x}, o);
      MapTotalRemove(m - {o}, x);
      assert m - {x} - {o} == m - {o} - {x};
    }
  }

  /** Bumping an owner's entry adds one to the total. */
  lemma MapTotalBump(m: map<string, nat>, o: string)
    ensures MapTotal(Bump(m, o)) == MapTotal(m) + 1
  {
    if o in m {
      MapTotalIncrement(m, o);
    } else {
      MapTotalInsert(m, o);
    }
  }

  lemma MapTotalIncrement(m: map<string, nat>, o: string)
    requires o in m
    ensures MapTotal(m[o := m[o] + 1]) == MapTotal(m) + 1
  {
    var b := m[o := m[o] + 1];
    assert b - {o} == m - {o};
    MapTotalRemove(b, o);
    MapTotalRemove(m, o);
  }

  lemma MapTotalInsert(m: map<string, nat>, o: string)
    requires o !in m
    ensures MapTotal(m[o := 1]) == MapTotal(m) + 1
  {
    var b := m[o := 1];
    assert b - {o} == m;
    MapTotalRemove(b, o);
  }

  /** The values of `OwnerMap(owners)` add up to the size of `owners`. */
  lemma {:induction false} MapTotalOfOwnerMap(owners: multiset<string>)
    ensures MapTotal(OwnerMap(owners)) == |owners|
    decreases |owners|
  {
    if |owners| == 0 {
      assert OwnerMap(owners) == map[];
    } else {
      var o :| o in owners;
      var rest := owners - multiset{o};
      assert owners == rest + multiset{o};
      MapTotalOfOwnerMap(rest);
      OwnerMapAdd(rest, o);
      MapTotalBump(OwnerMap(rest), o);
    }
  }

  /** The values in `dist[c]` add up to `counts[c]`; an empty cluster has an empty map. */
  lemma DistributionMatchesCounts(properties: seq<HousingProperty>, labels: seq<nat>, c: nat)
    requires |labels| <= |properties|
    ensures MapTotal(OwnerMap(OwnersOf(properties, labels, c))) == multiset(labels)[c]
    ensures multiset(labels)[c] == 0 ==> OwnerMap(OwnersOf(properties, labels, c)) == map[]
  {
    OwnersOfSize(properties, labels, c);
    MapTotalOfOwnerMap(OwnersOf(properties, labels, c));
  }

  /**
   * `cluster_properties`: scale, take the fit from the k-means library, then
   * de-scale the centroids and tally cluster sizes and owner types. A failed
   * fit is passed on as an error.
   */
  method ClusterProperties(properties: seq<HousingProperty>, k: nat, fit: KMeansFit)
    returns (result: Result<ClusterReport, string>)
    requires |properties| > 0
    requires fit.Fitted? ==> |fit.labels| == |properties| && |fit.centroids| == k
    requires fit.Fitted? ==> forall i :: 0 <= i < |fit.labels| ==> fit.labels[i] < k
    ensures fit.FitFailed? ==> result == Failure(fit.reason)
    ensures fit.Fitted? ==> result.Success?
    ensures result.Success? ==>
      var report, units, subs := result.value, Column(properties, 0), Column(properties, 1);
      && report.labels == fit.labels
      && |report.centroids| == k
      && (forall c :: 0 <= c < k ==>
            report.centroids[c] == (Denormalize(fit.centroids[c].0, SeqMin(units), Range(units)),
                                    Denormalize(fit.centroids[c].1, SeqMin(subs), Range(subs))))
      && |report.counts| == k && |report.dist| == k
      && (forall c :: 0 <= c < k ==> report.counts[c] == multiset(fit.labels)[c])
      && (forall c :: 0 <= c < k ==> report.dist[c] == OwnerMap(OwnersOf(properties, fit.labels, c)))
  {
    var data, mins, ranges := ToNdarrayWithScales(properties);
    if fit.FitFailed? {
      return Failure(fit.reason);
    }
    var labels := fit.labels;
    var centroids := DenormalizeCentroids(fit.centroids, mins, ranges);
    var counts := CountClusterSizes(labels, k);
    var dist := OwnerDistribution(properties, labels, k);
    result := Success(ClusterReport(labels, centroids, counts, dist));
  }
}
