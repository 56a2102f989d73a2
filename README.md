# Housing-property clustering: scaler, cluster report and chart data

This project models the data handling around the k-means clustering of
subsidised housing properties. Each property has a unit count
(`total_units`), an active-subsidy count (`subsidy_count`) and an owner
category (`owner_type`). The project covers:

- the **min–max feature scaler** (`to_ndarray_with_scales`). It builds the n×2
  matrix of unit and subsidy counts, finds each column's minimum and maximum,
  stores `range = max - min`, and rescales each column whose range is positive
  in place to `(v - min) / range`.
- the **cluster report** of `cluster_properties`. It de-scales the centroids
  with `c * range + min`, counts the size of each cluster, and tallies owner
  types per cluster in a `HashMap<String, usize>`.
- the **chart data** of `plot_clusters`. It computes the axis bounds with
  `min_max`, sets the number of clusters to the largest label plus one, builds
  each cluster's point series, and tallies the sums and counts behind the "X"
  centroid markers.

Modules:

- `Housing` (`housing.dfy`): the `HousingProperty` record with `u32` fields, and
  its two features cast to `f64`.
- `Stats` (`stats.dfy`): reference definitions of a column's minimum and
  maximum, of sums, and of label occurrence counts, plus lemmas about them.
- `Clustering` (`clustering.dfy`): the scaler and the report. The scaler fills an
  `array2<real>` in place, as the Rust code fills an `Array2<f64>`.
- `Plot` (`plot.dfy`): the chart-side computations, without any drawing.
- `Wrappers` (`wrappers.dfy`): `Option` and `Result`.

Conventions:

- A `u32` is the newtype `U32`, holding an `int` in `[0, 2^32)`.
- `f64` arithmetic is exact `real` arithmetic.
- Rust's `Vec` and `[f64; 2]` locals that the loops update are `seq` variables,
  reassigned in `for` loops.
- A `HashMap` is a `map`.
- The k-means fit is left to a foreign library. Its labels and centroids are an
  input to `Clustering.ClusterProperties`: the `KMeansFit` datatype holds either
  a fit or a failure.

Three facts about the code shape the model:

- A column with range 0 keeps its raw values: the rescaling at
  src/clustering.rs:48-52 runs only when the range is positive. For such a
  column the doc comment's "Scaled data in [0, 1]" (src/clustering.rs:18) can
  fail, since a constant column of 5s stays at 5. De-scaling is still exact,
  because `c * 0 + min = min` is the constant value
  (`Clustering.DenormalizeInvertsScale`).
- The only error path of `cluster_properties` is a failed fit, which `?` passes
  on (src/clustering.rs:76). It is modelled as `KMeansFit.FitFailed`.
- De-scaled centroids are kept unrounded. `{:.0}` (src/clustering.rs:86-87)
  only formats them for printing.

## Model

| member | source | states |
|---|---|---|
| `Housing.Feature` | src/clustering.rs:29-30 | the `u32` to `f64` cast is exact: the feature is a whole number in [0, 2^32) |
| `Housing.Column` | src/clustering.rs:28-31 | one raw feature value per record, in input order, each in [0, 2^32) |
| `Housing.PointOf` | src/plot.rs:49 | a record's chart position has whole-number coordinates in [0, 2^32), the casts `total_units as f64` and `subsidy_count as f64` |
| `Stats.SeqMin` | src/clustering.rs:38 | the column minimum is a value of the column and is at most every value of the column |
| `Stats.SeqMax` | src/clustering.rs:39 | the column maximum is a value of the column and is at least every value of the column |
| `Clustering.ToNdarrayWithScales` | src/clustering.rs:23-57 | the matrix is fresh, with one row per property in input order and two columns. `mins[col]` is the column minimum and `ranges[col]` is max − min. Each cell is its raw feature scaled with its column's min and range |
| `Clustering.FillRawValues` | src/clustering.rs:24-31 | row i holds property i's `total_units` in column 0 and its `subsidy_count` in column 1, both cast to real |
| `Clustering.ColumnBounds` | src/clustering.rs:33-41 | for both columns, `mins[col]` and `maxs[col]` are the least and the greatest value of that matrix column |
| `Clustering.ColumnPass` | src/clustering.rs:37-40 | the one pass of strict `<` / `>` updates over a column, seeded with its first value, ends at that column's minimum and maximum |
| `Clustering.ScaleColumns` | src/clustering.rs:43-54 | `ranges[c] = maxs[c] − mins[c]`. Each cell is rescaled when its column's range is positive and is otherwise left unchanged |
| `Clustering.ScaleColumn` | src/clustering.rs:49-52 | every cell of the chosen column becomes `(x − min) / range`, and every other column is untouched |
| `Clustering.Scale` | src/clustering.rs:48-51 | with a positive range, `c * range + min` gives back the raw value. With range 0 the value is kept (its meaning over a column: `ScaledWithinUnitInterval`, `ScaleAttainsEndpoints`, `ConstantColumnUnchanged`, `ScaleMonotone`) |
| `Clustering.Denormalize` | src/clustering.rs:83-84 | with a positive range, scaling the result gives back the centroid coordinate (and `DenormalizeInvertsScale`, `DenormalizeWithinColumn`) |
| `Clustering.ScaledWithinUnitInterval` | src/clustering.rs:48-52 | when a column's range is positive, every scaled value lies in [0, 1] |
| `Clustering.ScaleAttainsEndpoints` | src/clustering.rs:48-52 | when a column's range is positive, some row scales to exactly 0 (the minimum) and some row scales to exactly 1 (the maximum) |
| `Clustering.ConstantColumnUnchanged` | src/clustering.rs:48 | when a column's range is 0, every value keeps its raw value, which is the column minimum |
| `Clustering.ScaleMonotone` | src/clustering.rs:51 | within a column, raw a ≤ raw b implies scaled a ≤ scaled b |
| `Clustering.ScaleValueMonotone` | src/clustering.rs:48-52 | scaling with any non-negative range preserves the order of two values |
| `Clustering.ScaleValue` | src/clustering.rs:51 | for a positive range: de-scaling inverts scaling; a value in [min, min + range] scales into [0, 1]; min scales to 0 and min + range to 1 |
| `Clustering.DenormalizeInvertsScale` | src/clustering.rs:83-84 | de-scaling a scaled column value (line 51) with the column's min and range gives back the raw value, for both positive and zero ranges |
| `Clustering.DenormalizeWithinColumn` | src/clustering.rs:83-84 | a centroid coordinate in [0, 1] de-scales to a value between the column minimum and the column maximum |
| `Clustering.DenormalizeCentroids` | src/clustering.rs:82-88 | gives one de-scaled centroid per input centroid, in order, with each coordinate computed as `c * range + min` for its column |
| `Clustering.CountClusterSizes` | src/clustering.rs:91-92 | `counts` has length k, `counts[c]` is the number of labels equal to c, and the counts add up to the number of labels (every label < k) |
| `Stats.OccurrencesSum` | src/clustering.rs:91-92 | when every label is below k, the per-cluster label counts add up to the number of labels |
| `Clustering.OwnerDistribution` | src/clustering.rs:100-104 | `dist` has length k, and `dist[c]` maps each owner type of a record labelled c to its number of occurrences. Owner types that do not occur are not keys |
| `Clustering.Bump` | src/clustering.rs:103 | `entry(owner).or_insert(0) += 1`: the owner becomes a key whose count is one more than before (1 when it was absent), and every other key keeps its count (and `OwnerMapAdd`, `MapTotalBump`) |
| `Clustering.OwnerMapAdd` | src/clustering.rs:103 | adding one owner to a cluster's multiset has the same effect on its map as `entry(owner).or_insert(0) += 1` |
| `Clustering.OwnersOfCountsIndices` | src/clustering.rs:100-104 | the tally for (c, o) equals the number of indices whose label is c and whose owner type is o |
| `Clustering.OwnersOfSize` | src/clustering.rs:101-103 | cluster c gets exactly as many owner entries as there are labels equal to c |
| `Clustering.MapTotalRemove` | src/clustering.rs:103 | the sum of a map's values is the removed key's value plus the sum of the rest, whichever key is removed |
| `Clustering.MapTotalBump` | src/clustering.rs:103 | one `or_insert(0) += 1` step adds exactly one to the sum of a cluster's tallies |
| `Clustering.MapTotalOfOwnerMap` | src/clustering.rs:100-104 | the values of an owner map add up to the number of owners tallied |
| `Clustering.DistributionMatchesCounts` | src/clustering.rs:91-104 | the values in `dist[c]` add up to `counts[c]`, and a cluster with no labels has an empty map |
| `Clustering.ClusterProperties` | src/clustering.rs:70-113 | a failed fit is returned as the error. After a fit, the result holds the fit's labels, the k de-scaled centroids (each coordinate `c * range + min` with the column's min and max − min), the cluster sizes and the per-cluster owner maps |
| `Plot.Min` | src/plot.rs:91 | `f64::min` on non-NaN values: a result that is one of the two arguments and at most both |
| `Plot.Max` | src/plot.rs:91 | `f64::max` on non-NaN values: a result that is one of the two arguments and at least both |
| `Plot.MinMaxFold` | src/plot.rs:91 | the fold's result is at most the seed minimum and at least the seed maximum, bounds every folded value, and each end is either the seed or a folded value |
| `Plot.MinMax` | src/plot.rs:89-92 | the result is (0, 0) for no values. Otherwise it is a pair (lo, hi) with lo ≤ hi, both taken from the input, and every value lies between them |
| `Plot.MinMaxIsColumnBounds` | src/plot.rs:25-26 | for a non-empty column, the chart's axis bounds equal the column minimum and maximum that the scaler uses |
| `Plot.MaxLabel` | src/plot.rs:40 | `labels.iter().max()` is nothing exactly when there are no labels. Otherwise it is a label that is at least every label |
| `Plot.ClusterCount` | src/plot.rs:40-41 | k ≥ 1 and every label is below k. k − 1 is a label when there are labels, and k = 1 when there are none |
| `Plot.ClusterPoints` | src/plot.rs:46-50 | the zip/filter/map/collect of one cluster: at most one point per paired property (its contents are given by `ClusterPointsAreMembers`, `ClusterPointsCount`, `ClusterPointsOfPrefix` and `ClusterPointsPartition`) |
| `Plot.Members` | src/plot.rs:46-50 | the increasing list of exactly the indices whose label is `cluster_id` |
| `Plot.ClusterPointsAreMembers` | src/plot.rs:46-50 | the point list of `cluster_id` is the (units, subsidies) of each paired property labelled `cluster_id`, in original order. Pairing stops at the shorter of the two sequences |
| `Plot.ClusterPointsCount` | src/plot.rs:46-50 | a cluster's point list has one entry for each paired label equal to its id |
| `Plot.ClusterPointsOfPrefix` | src/plot.rs:47 | entries past the shorter sequence's length do not change any point list |
| `Plot.ClusterPointsStep` | src/plot.rs:46-50 | extending the pairs by one appends that pair's point exactly when its label is `cluster_id` |
| `Plot.ClusterPointsPartition` | src/plot.rs:44-50 | when every paired label is below k, each paired index is in its own label's list and in no other, and the list lengths add up to the number of pairs |
| `Plot.ClusterSeries` | src/plot.rs:44-57 | one point series per cluster 0..k, in cluster order |
| `Plot.PointSumAppend` | src/plot.rs:63-64 | adding a point to a list adds its coordinates to the componentwise sum |
| `Plot.TallyStep` | src/plot.rs:62-66 | one turn of the tally loop keeps every `counts[c]` and `sums[c]` equal to the size and the coordinate sum of cluster c's points so far |
| `Plot.CentroidTally` | src/plot.rs:60-66 | `counts[c]` is the size of cluster c's point list and `sums[c]` is its componentwise coordinate sum. The counts add up to the smaller of the numbers of properties and labels |
| `Stats.MeanWithinBounds` | src/plot.rs:69 | the mean of a non-empty list of values lies between its minimum and maximum |
| `Plot.Marker` | src/plot.rs:68-69 | present exactly when the count is positive, and then each coordinate times the count is that coordinate's sum (and `MarkerWithinCluster`) |
| `Plot.MarkerWithinCluster` | src/plot.rs:67-69 | a non-empty cluster's marker `sums[c] / counts[c]` exists and lies between the cluster's minimum and maximum coordinate, in each dimension |
| `Plot.CentroidMarkers` | src/plot.rs:67-74 | gives one marker per cluster, `sums[c] / counts[c]`. A marker is present exactly when the cluster's count is positive |
| `Plot.PlotClusters` | src/plot.rs:9-87 | the x and y axis bounds are `min_max` of the two columns, and k is the derived cluster count. There is one series per cluster, equal to its point list, and one marker per cluster, present exactly when the series is non-empty |

## Left out

- The k-means fit, `predict` and `centroids` (src/clustering.rs:76-78) are calls into a foreign library. The labels and centroids are inputs, so the two-cluster test at src/clustering.rs:122-139, which depends on that library's behaviour, is not reproduced.
- Console output (`println!` and the `{:.0}` formatting) is presentation. The model keeps the computed values that are printed.
- Chart rendering is left out: the drawing area, series, legend, colours (src/utils.rs) and `present()`. So is the output-file probe loop (src/plot.rs:11-18), which depends on the filesystem.
- CSV loading (src/data.rs `load_cleaned_data`), the pandas cleaning script and the wiring in src/main.rs (k = 4) are I/O and glue. Only the record shape of src/data.rs:10-19 is modelled.
- IEEE-754 rounding is not modelled. The scaling division, the de-scaling and the marker sums are exact over `real`.
- `f64::min` / `f64::max` are modelled without NaN: every value is a cast of an integer.
- Clustering.ToNdarrayWithScales: requires at least one property. With none, the code returns `mins = +inf` and `ranges = -inf`; the model does not have infinities. Row 0's values stand in for the `+inf` / `-inf` seeds of the min/max loop, which still visits every row.
- Clustering.ClusterProperties: requires at least one property, for the same reason. It also requires a fit to give one label per property, every label below k, and k centroids. The library guarantees all three. The code's indexing needs the two label requirements: `counts[lbl]` and `dist[lbl]` need every label below k, and `properties[idx]` needs one label per property (src/clustering.rs:92, 102-103). The k-centroid requirement comes only from the library's guarantee, since the de-scaling loop at src/clustering.rs:82 accepts any number of centroids.
- Plot.CentroidMarkers: the NaN position of an empty cluster (division by a zero count, src/plot.rs:69) is modelled as no marker.
- Plot.ClusterCount: the `usize` overflow of `max_label + 1` is not modelled. Labels are unbounded naturals.
