/**
 * The housing record the clustering and the chart work on (src/data.rs),
 * and the two numeric features read from it.
 */
module Housing {

  /** Rust's `u32`: the width of both numeric fields of a record. */
  newtype U32 = x: int | 0 <= x < 0x1_0000_0000

  /** One cleaned row of the housing data set. */
  datatype HousingProperty = HousingProperty(totalUnits: U32, subsidyCount: U32, ownerType: string)

  /** A position in the (units, subsidies) plane; `f64` values are modelled as `real`. */
  type Point = (real, real)

  /** Number of features used for clustering. */
  const FeatureCount: nat := 2

  /** Feature `col` of a record cast to `f64`: column 0 is `total_units`, column 1 `subsidy_count`. */
  function Feature(p: HousingProperty, col: nat): (v: real)
    requires col < FeatureCount
    ensures 0.0 <= v < 4294967296.0 && v.Floor as real == v
  {
    if col == 0 then p.totalUnits as int as real else p.subsidyCount as int as real
  }

  /** The raw values of one feature, one per record, in input order. */
  function Column(properties: seq<HousingProperty>, col: nat): (c: seq<real>)
    requires col < FeatureCount
    ensures |c| == |properties|
    ensures forall i :: 0 <= i < |c| ==> 0.0 <= c[i] < 4294967296.0
  {
    seq(|properties|, i requires 0 <= i < |properties| => Feature(properties[i], col))
  }

  /** The chart position of a record: `(total_units as f64, subsidy_count as f64)`. */
  function PointOf(p: HousingProperty): (q: Point)
    ensures 0.0 <= q.0 < 4294967296.0 && q.0.Floor as real == q.0
    ensures 0.0 <= q.1 < 4294967296.0 && q.1.Floor as real == q.1
  {
    (Feature(p, 0), Feature(p, 1))
  }
}
