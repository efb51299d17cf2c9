/**
 * The telemetry store and the statistical-baseline engine (`HealthDataHandler`): stored
 * sensor points are reduced to per-factor, per-bucket lists of health metrics and then
 * to summary statistics.
 */
module Telemetry {
  import opened Wrappers
  import Keyed

  /** The `data` dict of a stored point; a stored None and a missing key are both None here. */
  datatype Reading = Reading(
    latitude: Option<real>, longitude: Option<real>, altitude: Option<real>,
    speedX: Option<real>, speedY: Option<real>, speedZ: Option<real>,
    heartRate: Option<real>, caloriesBurned: Option<real>, o2Saturation: Option<real>)

  /** A stored telemetry point; `data` is None when the key is missing or the dict is empty. */
  datatype HealthRecord = HealthRecord(
    pointId: string, userId: string, tripId: Option<string>, timestamp: Option<string>, data: Option<Reading>)

  /** A point's identity: `(point_id, user_id)`. */
  function PointKey(r: HealthRecord): (string, string) { (r.pointId, r.userId) }

  function UserOf(r: HealthRecord): string { r.userId }

  datatype Factor = Temperature | Altitude | SpeedXY | SpeedZ
  datatype Metric = HeartRate | CaloriesBurned | O2Saturation

  /** The factors in the order the source's `factor_buckets` dict lists them. */
  const Factors: seq<Factor> := [Temperature, Altitude, SpeedXY, SpeedZ]

  /** `bucket_sizes`: 5 for temperature, 10 for altitude, 5*5/18 for both speeds. */
  function BucketWidth(f: Factor): (w: real)
    ensures w > 0.0
  {
    match f
    case Temperature => 5.0
    case Altitude => 10.0
    case _ => 25.0 / 18.0
  }

  /** Python's `int(x)` on a float: truncation toward zero. */
  function Trunc(x: real): int
  {
    if x >= 0.0 then x.Floor else -((-x).Floor)
  }

  /** `_bucketize`: `int(floor(v / w) * w)`. */
  function Bucketize(v: real, w: real): int
    requires w > 0.0
  {
    Trunc((v / w).Floor as real * w)
  }

  /** Multiplying by a positive factor keeps an order. */
  lemma MulMonotone(a: real, b: real, c: real)
    requires c > 0.0
    ensures a <= b ==> a * c <= b * c
    ensures a < b ==> a * c < b * c
  {
  }

  lemma AddOneMul(a: real, c: real)
    ensures (a + 1.0) * c == a * c + c
  {
  }

  lemma DivMulCancel(v: real, w: real)
    requires w != 0.0
    ensures (v / w) * w == v
  {
  }

  /** A multiple of `w` leaves no remainder. */
  lemma MultipleMod(n: int, w: nat)
    requires w > 0
    ensures (n * w) % w == 0
  {
    var q, r := (n * w) / w, (n * w) % w;
    assert n * w == q * w + r && 0 <= r < w;
    var k := n - q;
    assert k * w == r;
  }

  /** With a whole-number width the bucket is a multiple of it and the value lies in `[b, b + w)`. */
  lemma BucketizeWholeWidth(v: real, w: nat)
    requires w > 0
    ensures Bucketize(v, w as real) % w == 0
    ensures Bucketize(v, w as real) as real <= v < Bucketize(v, w as real) as real + w as real
  {
    var rw := w as real;
    var n := (v / rw).Floor;
    assert n as real <= v / rw < n as real + 1.0;
    var p := n * w;
    assert (n as real) * rw == p as real;
    assert Trunc(p as real) == p;
    assert Bucketize(v, rw) == p;
    MultipleMod(n, w);
    FloorBounds(v, rw, n);
  }

  /** The multiple of `w` below `v` by the floor of `v / w` lies within one `w` of `v`. */
  lemma FloorBounds(v: real, w: real, n: int)
    requires w > 0.0 && n as real <= v / w < n as real + 1.0
    ensures n as real * w <= v < n as real * w + w
  {
    FloorLower(v, w, n as real);
    FloorUpper(v, w, n as real);
  }

  lemma FloorLower(v: real, w: real, m: real)
    requires w > 0.0 && m <= v / w
    ensures m * w <= v
  {
    DivMulCancel(v, w);
    MulMonotone(m, v / w, w);
  }

  lemma FloorUpper(v: real, w: real, m: real)
    requires w > 0.0 && v / w < m + 1.0
    ensures v < m * w + w
  {
    DivMulCancel(v, w);
    MulMonotone(v / w, m + 1.0, w);
    AddOneMul(m, w);
  }

  /** With the speed width only the lower bound survives truncation, and only for non-negative values. */
  lemma BucketizeSpeedBelow(v: real)
    requires v >= 0.0
    ensures 0 <= Bucketize(v, 25.0 / 18.0) && Bucketize(v, 25.0 / 18.0) as real <= v
  {
    var w := 25.0 / 18.0;
    var n := (v / w).Floor;
    assert n >= 0;
    assert n as real * w <= (v / w) * w;
  }

  /** For a negative speed the truncated bucket lies above the value. */
  lemma BucketizeSpeedNegative()
    ensures Bucketize(-1.2, 25.0 / 18.0) == -1
  {
    assert (-1.2 / (25.0 / 18.0)).Floor == -1;
  }

  lemma BucketizeExamples()
    ensures Bucketize(12.0, 10.0) == 10 && Bucketize(29.0, 10.0) == 20 && Bucketize(-3.0, 10.0) == -10
  {
    assert (12.0 / 10.0).Floor == 1;
    assert (29.0 / 10.0).Floor == 2;
    assert (-3.0 / 10.0).Floor == -1;
  }

  /** Mean, max, min and population variance of one bucket's metric values. */
  datatype Stats = Stats(mean: real, max: real, min: real, variance: real)

  function Sum(xs: seq<real>): real
  {
    if |xs| == 0 then 0.0 else xs[0] + Sum(xs[1..])
  }

  function MaxOf(xs: seq<real>): (m: real)
    requires |xs| > 0
    ensures forall i :: 0 <= i < |xs| ==> xs[i] <= m
  {
    if |xs| == 1 then xs[0] else var r := MaxOf(xs[1..]); if xs[0] >= r then xs[0] else r
  }

  /** The maximum is one of the values. */
  lemma {:induction false} MaxOfIn(xs: seq<real>)
    requires |xs| > 0
    ensures MaxOf(xs) in xs
  {
    if |xs| > 1 {
      MaxOfIn(xs[1..]);
    }
  }

  function MinOf(xs: seq<real>): (m: real)
    requires |xs| > 0
    ensures forall i :: 0 <= i < |xs| ==> m <= xs[i]
  {
    if |xs| == 1 then xs[0] else var r := MinOf(xs[1..]); if xs[0] <= r then xs[0] else r
  }

  /** The minimum is one of the values. */
  lemma {:induction false} MinOfIn(xs: seq<real>)
    requires |xs| > 0
    ensures MinOf(xs) in xs
  {
    if |xs| > 1 {
      MinOfIn(xs[1..]);
    }
  }

  /** `a * b`, named so that facts about a product survive as facts about this application. */
  function Product(a: real, b: real): real { a * b }

  function Square(x: real): real { Product(x, x) }

  /** Sum of squared deviations from `m`. */
  function SquaredDeviations(xs: seq<real>, m: real): real
  {
    if |xs| == 0 then 0.0 else Square(xs[0] - m) + SquaredDeviations(xs[1..], m)
  }

  /** A product of two factors of the same sign is positive, and non-negative when either may be zero. */
  lemma SameSignProduct(a: real, b: real)
    ensures (a > 0.0 && b > 0.0) || (a < 0.0 && b < 0.0) ==> Product(a, b) > 0.0
    ensures (a >= 0.0 && b >= 0.0) || (a <= 0.0 && b <= 0.0) ==> Product(a, b) >= 0.0
  {
  }

  /** A square is never negative, and positive away from zero. */
  lemma SquareNonNegative(d: real)
    ensures Square(d) >= 0.0
    ensures d != 0.0 ==> Square(d) > 0.0
  {
    SameSignProduct(d, d);
  }

  lemma {:induction false} SquaredDeviationsNonNegative(xs: seq<real>, m: real)
    ensures SquaredDeviations(xs, m) >= 0.0
  {
    if |xs| > 0 {
      SquareNonNegative(xs[0] - m);
      SquaredDeviationsNonNegative(xs[1..], m);
    }
  }

  /** Every value is at least `lo`, so the sum is at least `n * lo`. */
  lemma {:induction false} SumAtLeast(xs: seq<real>, lo: real)
    requires forall i :: 0 <= i < |xs| ==> lo <= xs[i]
    ensures |xs| as real * lo <= Sum(xs)
  {
    if |xs| > 0 {
      SumAtLeast(xs[1..], lo);
    }
  }

  /** Every value is at most `hi`, so the sum is at most `n * hi`. */
  lemma {:induction false} SumAtMost(xs: seq<real>, hi: real)
    requires forall i :: 0 <= i < |xs| ==> xs[i] <= hi
    ensures Sum(xs) <= |xs| as real * hi
  {
    if |xs| > 0 {
      SumAtMost(xs[1..], hi);
    }
  }

  /** A total of at least `n * lo` averages to at least `lo`. */
  lemma AverageAtLeast(s: real, n: real, lo: real)
    requires n > 0.0 && n * lo <= s
    ensures lo <= s / n
  {
    DivMulCancel(s, n);
    MulMonotone(s / n, lo, n);
  }

  /** A total of at most `n * hi` averages to at most `hi`. */
  lemma AverageAtMost(s: real, n: real, hi: real)
    requires n > 0.0 && s <= n * hi
    ensures s / n <= hi
  {
    DivMulCancel(s, n);
    MulMonotone(hi, s / n, n);
  }

  lemma DivNonNegative(a: real, n: real)
    requires a >= 0.0 && n > 0.0
    ensures a / n >= 0.0
  {
    DivMulCancel(a, n);
    MulMonotone(a / n, 0.0, n);
  }

  lemma SumAtLeastMin(xs: seq<real>)
    requires |xs| > 0
    ensures |xs| as real * MinOf(xs) <= Sum(xs)
  {
    SumAtLeast(xs, MinOf(xs));
  }

  lemma SumAtMostMax(xs: seq<real>)
    requires |xs| > 0
    ensures Sum(xs) <= |xs| as real * MaxOf(xs)
  {
    SumAtMost(xs, MaxOf(xs));
  }

  /** The mean of a non-empty list is at least its minimum. */
  lemma MeanAboveMin(xs: seq<real>)
    requires |xs| > 0
    ensures MinOf(xs) <= Sum(xs) / (|xs| as real)
  {
    SumAtLeastMin(xs);
    AverageAtLeast(Sum(xs), |xs| as real, MinOf(xs));
  }

  /** The mean of a non-empty list is at most its maximum. */
  lemma MeanBelowMax(xs: seq<real>)
    requires |xs| > 0
    ensures Sum(xs) / (|xs| as real) <= MaxOf(xs)
  {
    SumAtMostMax(xs);
    AverageAtMost(Sum(xs), |xs| as real, MaxOf(xs));
  }

  lemma VarianceNonNegative(xs: seq<real>, mean: real)
    requires |xs| > 0
    ensures SquaredDeviations(xs, mean) / (|xs| as real) >= 0.0
  {
    SquaredDeviationsNonNegative(xs, mean);
    DivNonNegative(SquaredDeviations(xs, mean), |xs| as real);
  }

  /**
   * `_compute_stats`: None for an empty list; otherwise the mean is the sum over N, min
   * and max are values of the list bounding every value, so min <= mean <= max, and the
   * variance is the population variance (squared deviations from the mean over N), never
   * negative.
   */
  function ComputeStats(xs: seq<real>): (r: Option<Stats>)
    ensures r.None? <==> |xs| == 0
    ensures r.Some? ==> r.value.mean == Sum(xs) / |xs| as real
    ensures r.Some? ==> forall i :: 0 <= i < |xs| ==> r.value.min <= xs[i] <= r.value.max
    ensures r.Some? ==> r.value.min in xs && r.value.max in xs
    ensures r.Some? ==> r.value.min <= r.value.mean <= r.value.max
    ensures r.Some? ==> r.value.variance == SquaredDeviations(xs, r.value.mean) / |xs| as real
    ensures r.Some? ==> r.value.variance >= 0.0
  {
    if |xs| == 0 then None
    else
      var n := |xs| as real;
      var mean := Sum(xs) / n;
      MeanAboveMin(xs);
      MeanBelowMax(xs);
      MinOfIn(xs);
      MaxOfIn(xs);
      VarianceNonNegative(xs, mean);
      Some(Stats(mean, MaxOf(xs), MinOf(xs), SquaredDeviations(xs, mean) / n))
  }

  /** Values all equal to `m` deviate from it by nothing. */
  lemma {:induction false} SquaredDeviationsAllEqual(xs: seq<real>, m: real)
    requires forall i :: 0 <= i < |xs| ==> xs[i] == m
    ensures SquaredDeviations(xs, m) == 0.0
  {
    if |xs| > 0 {
      SquaredDeviationsAllEqual(xs[1..], m);
    }
  }

  /** A value away from `m` makes the squared deviations positive. */
  lemma {:induction false} SquaredDeviationsPositive(xs: seq<real>, m: real, i: nat)
    requires i < |xs| && xs[i] != m
    ensures SquaredDeviations(xs, m) > 0.0
  {
    SquareNonNegative(xs[0] - m);
    if i == 0 {
      SquaredDeviationsNonNegative(xs[1..], m);
    } else {
      assert xs[1..][i - 1] == xs[i];
      SquaredDeviationsPositive(xs[1..], m, i - 1);
    }
  }

  /** No squared deviation from `m` at all leaves every value at `m`. */
  lemma SquaredDeviationsZero(xs: seq<real>, m: real)
    requires SquaredDeviations(xs, m) == 0.0
    ensures forall i :: 0 <= i < |xs| ==> xs[i] == m
  {
    forall i | 0 <= i < |xs| ensures xs[i] == m {
      if xs[i] != m {
        SquaredDeviationsPositive(xs, m, i);
      }
    }
  }

  /** A list whose values all equal `x` has mean `x`. */
  lemma MeanOfEqual(xs: seq<real>, x: real)
    requires |xs| > 0 && forall i :: 0 <= i < |xs| ==> xs[i] == x
    ensures Sum(xs) / |xs| as real == x
  {
    SumAtLeast(xs, x);
    SumAtMost(xs, x);
    AverageAtLeast(Sum(xs), |xs| as real, x);
    AverageAtMost(Sum(xs), |xs| as real, x);
  }

  /** The population variance is zero exactly when all the values are equal. */
  lemma VarianceZeroIff(xs: seq<real>)
    requires |xs| > 0
    ensures ComputeStats(xs).value.variance == 0.0 <==> forall i, j :: 0 <= i < |xs| && 0 <= j < |xs| ==> xs[i] == xs[j]
  {
    var n := |xs| as real;
    var st := ComputeStats(xs).value;
    if forall i, j :: 0 <= i < |xs| && 0 <= j < |xs| ==> xs[i] == xs[j] {
      assert forall i :: 0 <= i < |xs| ==> xs[i] == xs[0];
      MeanOfEqual(xs, xs[0]);
      SquaredDeviationsAllEqual(xs, xs[0]);
    }
    if st.variance == 0.0 {
      DivMulCancel(SquaredDeviations(xs, st.mean), n);
      SquaredDeviationsZero(xs, st.mean);
    }
  }

  /** The population variance of [2, 4, 6] is 8/3 around a mean of 4. */
  lemma ComputeStatsExample()
    ensures ComputeStats([2.0, 4.0, 6.0]) == Some(Stats(4.0, 6.0, 2.0, 8.0 / 3.0))
  {
    var xs := [2.0, 4.0, 6.0];
    assert xs[1..] == [4.0, 6.0] && xs[1..][1..] == [6.0] && xs[1..][1..][1..] == [];
    assert Sum(xs) == 12.0;
    assert MaxOf(xs) == 6.0;
    assert MinOf(xs) == 2.0;
    assert SquaredDeviations(xs, 4.0) == 8.0;
  }

  /** One bucket: metric name to the values collected, in first-append order. */
  type MetricLists = seq<(Metric, seq<real>)>

  /** One factor: bucket value to its metric lists, in first-append order (the nested defaultdicts). */
  type BucketTable = seq<(int, MetricLists)>

  function ListFor(ml: MetricLists, m: Metric): seq<real>
  {
    if |ml| == 0 then [] else if ml[0].0 == m then ml[0].1 else ListFor(ml[1..], m)
  }

  /** `lists[m].append(x)` on a `defaultdict(list)`. */
  function AppendToList(ml: MetricLists, m: Metric, x: real): (r: MetricLists)
    ensures |r| > 0
  {
    if |ml| == 0 then [(m, [x])]
    else if ml[0].0 == m then [(m, ml[0].1 + [x])] + ml[1..]
    else [ml[0]] + AppendToList(ml[1..], m, x)
  }

  /** Appending to `m` extends `m`'s list by `x` and leaves every other metric's list alone. */
  lemma {:induction false} ListForAppend(ml: MetricLists, m: Metric, x: real, m': Metric)
    ensures ListFor(AppendToList(ml, m, x), m') == ListFor(ml, m') + (if m == m' then [x] else [])
  {
    var r := AppendToList(ml, m, x);
    if |ml| == 0 {
      assert r[1..] == [];
    } else if ml[0].0 == m {
      assert r[1..] == ml[1..];
    } else {
      assert r[1..] == AppendToList(ml[1..], m, x);
      ListForAppend(ml[1..], m, x, m');
    }
  }

  predicate ListsPopulated(ml: MetricLists)
  {
    forall j :: 0 <= j < |ml| ==> |ml[j].1| > 0
  }

  lemma {:induction false} ListsPopulatedAppend(ml: MetricLists, m: Metric, x: real)
    requires ListsPopulated(ml)
    ensures ListsPopulated(AppendToList(ml, m, x))
  {
    if |ml| > 0 && ml[0].0 != m {
      ListsPopulatedAppend(ml[1..], m, x);
    }
  }

  /** The bucket keys of a table, in table order. */
  function BucketKeys<T>(t: seq<(int, T)>): (ks: seq<int>)
    ensures |ks| == |t| && forall i :: 0 <= i < |t| ==> ks[i] == t[i].0
  {
    if |t| == 0 then [] else [t[0].0] + BucketKeys(t[1..])
  }

  /** `table[b][m]`, or the empty list. */
  function ValuesAt(t: BucketTable, b: int, m: Metric): seq<real>
  {
    if |t| == 0 then [] else if t[0].0 == b then ListFor(t[0].1, m) else ValuesAt(t[1..], b, m)
  }

  /** Every bucket holds some metric and every metric list some value. */
  predicate Populated(t: BucketTable)
  {
    forall i :: 0 <= i < |t| ==> |t[i].1| > 0 && ListsPopulated(t[i].1)
  }

  /** `factor_buckets[f][b][m].append(x)`: the bucket is created on first use. */
  function AppendToTable(t: BucketTable, b: int, m: Metric, x: real): (r: BucketTable)
    ensures |r| > 0
  {
    if |t| == 0 then [(b, [(m, [x])])]
    else if t[0].0 == b then [(b, AppendToList(t[0].1, m, x))] + t[1..]
    else [t[0]] + AppendToTable(t[1..], b, m, x)
  }

  /** Appending touches exactly one list: bucket `b`, metric `m`. */
  lemma {:induction false} ValuesAtAppend(t: BucketTable, b: int, m: Metric, x: real, b': int, m': Metric)
    ensures ValuesAt(AppendToTable(t, b, m, x), b', m') == ValuesAt(t, b', m') + (if b == b' && m == m' then [x] else [])
  {
    var r := AppendToTable(t, b, m, x);
    if |t| == 0 {
      assert r == [(b, [(m, [x])])];
      assert r[1..] == [];
      assert [(m, [x])][1..] == [];
      assert ListFor([(m, [x])], m') == if m == m' then [x] else ListFor([], m');
    } else if t[0].0 == b {
      assert r[1..] == t[1..];
      ListForAppend(t[0].1, m, x, m');
    } else {
      assert r[1..] == AppendToTable(t[1..], b, m, x);
      ValuesAtAppend(t[1..], b, m, x, b', m');
    }
  }

  /** The bucket keys keep their order; a new bucket goes at the end. */
  lemma {:induction false} KeysAppend(t: BucketTable, b: int, m: Metric, x: real)
    ensures BucketKeys(AppendToTable(t, b, m, x)) == if b in BucketKeys(t) then BucketKeys(t) else BucketKeys(t) + [b]
  {
    if |t| > 0 && t[0].0 != b {
      KeysAppend(t[1..], b, m, x);
      assert BucketKeys(t) == [t[0].0] + BucketKeys(t[1..]);
    }
  }

  lemma {:induction false} PopulatedAppend(t: BucketTable, b: int, m: Metric, x: real)
    requires Populated(t)
    ensures Populated(AppendToTable(t, b, m, x))
  {
    if |t| > 0 {
      if t[0].0 == b {
        ListsPopulatedAppend(t[0].1, m, x);
      } else {
        PopulatedAppend(t[1..], b, m, x);
      }
    }
  }

  /** Total number of values of metric `m` over every bucket. */
  function TotalValues(t: BucketTable, m: Metric): nat
  {
    if |t| == 0 then 0 else |ListFor(t[0].1, m)| + TotalValues(t[1..], m)
  }

  lemma {:induction false} TotalValuesAppend(t: BucketTable, b: int, m: Metric, x: real, m': Metric)
    ensures TotalValues(AppendToTable(t, b, m, x), m') == TotalValues(t, m') + (if m == m' then 1 else 0)
  {
    var r := AppendToTable(t, b, m, x);
    if |t| == 0 {
      assert r == [(b, [(m, [x])])];
      assert r[1..] == [];
      assert [(m, [x])][1..] == [];
      assert ListFor([(m, [x])], m') == if m == m' then [x] else ListFor([], m');
    } else if t[0].0 == b {
      assert r[1..] == t[1..];
      ListForAppend(t[0].1, m, x, m');
    } else {
      assert r[1..] == AppendToTable(t[1..], b, m, x);
      TotalValuesAppend(t[1..], b, m, x, m');
    }
  }

  /** The collaborators a baseline needs: the temperature lookup and the float `hypot`. */
  datatype Env = Env(
    temperature: (Option<real>, Option<real>, Option<string>) -> real,
    hypot: (real, real) -> real)

  function Abs(x: real): real { if x < 0.0 then -x else x }

  /** A factor's raw value for a point: missing altitude and speeds default to 0. */
  function FactorValue(f: Factor, rec: HealthRecord, d: Reading, env: Env): real
  {
    match f
    case Temperature => env.temperature(d.latitude, d.longitude, rec.timestamp)
    case Altitude => d.altitude.GetOr(0.0)
    case SpeedXY => env.hypot(d.speedX.GetOr(0.0), d.speedY.GetOr(0.0))
    case SpeedZ => Abs(d.speedZ.GetOr(0.0))
  }

  function BucketOf(f: Factor, rec: HealthRecord, d: Reading, env: Env): int
  {
    Bucketize(FactorValue(f, rec, d, env), BucketWidth(f))
  }

  function MetricValue(d: Reading, m: Metric): Option<real>
  {
    match m
    case HeartRate => d.heartRate
    case CaloriesBurned => d.caloriesBurned
    case O2Saturation => d.o2Saturation
  }

  /** The inner loop over `metrics` for one factor: each present metric is appended to bucket `b`. */
  function AddReading(t: BucketTable, b: int, d: Reading): BucketTable
  {
    var t1 := if d.heartRate.Some? then AppendToTable(t, b, HeartRate, d.heartRate.value) else t;
    var t2 := if d.caloriesBurned.Some? then AppendToTable(t1, b, CaloriesBurned, d.caloriesBurned.value) else t1;
    if d.o2Saturation.Some? then AppendToTable(t2, b, O2Saturation, d.o2Saturation.value) else t2
  }

  /** A point with no `data` is skipped; otherwise its metrics go into its bucket for `f`. */
  function AddRecord(t: BucketTable, f: Factor, rec: HealthRecord, env: Env): BucketTable
  {
    if rec.data.None? then t else AddReading(t, BucketOf(f, rec, rec.data.value, env), rec.data.value)
  }

  /** The bucket table for factor `f` after processing `recs` in order. */
  function BuildTable(f: Factor, recs: seq<HealthRecord>, env: Env): BucketTable
  {
    if |recs| == 0 then [] else AddRecord(BuildTable(f, recs[..|recs| - 1], env), f, recs[|recs| - 1], env)
  }

  /** Whether a point contributes metric `m` to bucket `b` of factor `f`. */
  predicate Contributes(rec: HealthRecord, f: Factor, b: int, m: Metric, env: Env)
  {
    rec.data.Some? && MetricValue(rec.data.value, m).Some? && BucketOf(f, rec, rec.data.value, env) == b
  }

  /** The values of `m` from the points, in sample order, whose bucket for `f` is `b`. */
  function Collected(recs: seq<HealthRecord>, f: Factor, b: int, m: Metric, env: Env): seq<real>
  {
    if |recs| == 0 then []
    else
      var last := recs[|recs| - 1];
      Collected(recs[..|recs| - 1], f, b, m, env)
        + (if Contributes(last, f, b, m, env) then [MetricValue(last.data.value, m).value] else [])
  }

  /** How many points carry metric `m` at all. */
  function CountWithMetric(recs: seq<HealthRecord>, m: Metric): nat
  {
    if |recs| == 0 then 0
    else
      var last := recs[|recs| - 1];
      CountWithMetric(recs[..|recs| - 1], m)
        + (if last.data.Some? && MetricValue(last.data.value, m).Some? then 1 else 0)
  }

  /** Whether a reading carries at least one metric, so that it creates its buckets. */
  predicate HasMetric(d: Reading)
  {
    d.heartRate.Some? || d.caloriesBurned.Some? || d.o2Saturation.Some?
  }

  lemma AddReadingValues(t: BucketTable, b: int, d: Reading, b': int, m: Metric)
    ensures ValuesAt(AddReading(t, b, d), b', m)
         == ValuesAt(t, b', m) + (if b == b' && MetricValue(d, m).Some? then [MetricValue(d, m).value] else [])
  {
    var t1 := if d.heartRate.Some? then AppendToTable(t, b, HeartRate, d.heartRate.value) else t;
    var t2 := if d.caloriesBurned.Some? then AppendToTable(t1, b, CaloriesBurned, d.caloriesBurned.value) else t1;
    if d.heartRate.Some? { ValuesAtAppend(t, b, HeartRate, d.heartRate.value, b', m); }
    if d.caloriesBurned.Some? { ValuesAtAppend(t1, b, CaloriesBurned, d.caloriesBurned.value, b', m); }
    if d.o2Saturation.Some? { ValuesAtAppend(t2, b, O2Saturation, d.o2Saturation.value, b', m); }
  }

  lemma AddReadingTotal(t: BucketTable, b: int, d: Reading, m: Metric)
    ensures TotalValues(AddReading(t, b, d), m) == TotalValues(t, m) + (if MetricValue(d, m).Some? then 1 else 0)
  {
    var t1 := if d.heartRate.Some? then AppendToTable(t, b, HeartRate, d.heartRate.value) else t;
    var t2 := if d.caloriesBurned.Some? then AppendToTable(t1, b, CaloriesBurned, d.caloriesBurned.value) else t1;
    if d.heartRate.Some? { TotalValuesAppend(t, b, HeartRate, d.heartRate.value, m); }
    if d.caloriesBurned.Some? { TotalValuesAppend(t1, b, CaloriesBurned, d.caloriesBurned.value, m); }
    if d.o2Saturation.Some? { TotalValuesAppend(t2, b, O2Saturation, d.o2Saturation.value, m); }
  }

  lemma AddReadingKeys(t: BucketTable, b: int, d: Reading, b': int)
    ensures b' in BucketKeys(AddReading(t, b, d)) <==> b' in BucketKeys(t) || (b' == b && HasMetric(d))
  {
    var t1 := if d.heartRate.Some? then AppendToTable(t, b, HeartRate, d.heartRate.value) else t;
    var t2 := if d.caloriesBurned.Some? then AppendToTable(t1, b, CaloriesBurned, d.caloriesBurned.value) else t1;
    if d.heartRate.Some? { KeysAppend(t, b, HeartRate, d.heartRate.value); }
    if d.caloriesBurned.Some? { KeysAppend(t1, b, CaloriesBurned, d.caloriesBurned.value); }
    if d.o2Saturation.Some? { KeysAppend(t2, b, O2Saturation, d.o2Saturation.value); }
  }

  lemma AddReadingPopulated(t: BucketTable, b: int, d: Reading)
    requires Populated(t)
    ensures Populated(AddReading(t, b, d))
  {
    var t1 := if d.heartRate.Some? then AppendToTable(t, b, HeartRate, d.heartRate.value) else t;
    var t2 := if d.caloriesBurned.Some? then AppendToTable(t1, b, CaloriesBurned, d.caloriesBurned.value) else t1;
    if d.heartRate.Some? { PopulatedAppend(t, b, HeartRate, d.heartRate.value); }
    if d.caloriesBurned.Some? { PopulatedAppend(t1, b, CaloriesBurned, d.caloriesBurned.value); }
    if d.o2Saturation.Some? { PopulatedAppend(t2, b, O2Saturation, d.o2Saturation.value); }
  }

  /**
   * The bucket lists hold exactly what the points contribute: for every bucket and
   * metric, the values of the points that fall into that bucket, in sample order.
   */
  lemma {:induction false} BuildTableCollects(f: Factor, recs: seq<HealthRecord>, env: Env, b: int, m: Metric)
    ensures ValuesAt(BuildTable(f, recs, env), b, m) == Collected(recs, f, b, m, env)
  {
    if |recs| > 0 {
      var last := recs[|recs| - 1];
      BuildTableCollects(f, recs[..|recs| - 1], env, b, m);
      if last.data.Some? {
        AddReadingValues(BuildTable(f, recs[..|recs| - 1], env), BucketOf(f, last, last.data.value, env), last.data.value, b, m);
      }
    }
  }

  /** Each present metric value lands in exactly one bucket: the bucket totals count every point carrying it once. */
  lemma {:induction false} BuildTableCountsOnce(f: Factor, recs: seq<HealthRecord>, env: Env, m: Metric)
    ensures TotalValues(BuildTable(f, recs, env), m) == CountWithMetric(recs, m)
  {
    if |recs| > 0 {
      var last := recs[|recs| - 1];
      BuildTableCountsOnce(f, recs[..|recs| - 1], env, m);
      if last.data.Some? {
        AddReadingTotal(BuildTable(f, recs[..|recs| - 1], env), BucketOf(f, last, last.data.value, env), last.data.value, m);
      }
    }
  }

  /** Whether point `i` has a metric and falls into bucket `b` of factor `f`. */
  predicate OpensBucket(recs: seq<HealthRecord>, i: int, f: Factor, b: int, env: Env)
    requires 0 <= i < |recs|
  {
    recs[i].data.Some? && HasMetric(recs[i].data.value) && BucketOf(f, recs[i], recs[i].data.value, env) == b
  }

  /** Whether some point with a metric falls into bucket `b` of factor `f`. */
  predicate Opened(recs: seq<HealthRecord>, f: Factor, b: int, env: Env)
  {
    exists i :: 0 <= i < |recs| && OpensBucket(recs, i, f, b, env)
  }

  /** A bucket is opened by the points before the last one, or by the last one. */
  lemma OpenedSnoc(recs: seq<HealthRecord>, f: Factor, b: int, env: Env)
    requires |recs| > 0
    ensures var last := recs[|recs| - 1];
            Opened(recs, f, b, env)
            <==> Opened(recs[..|recs| - 1], f, b, env)
                 || (last.data.Some? && HasMetric(last.data.value) && BucketOf(f, last, last.data.value, env) == b)
  {
    var init := recs[..|recs| - 1];
    var last := recs[|recs| - 1];
    if last.data.Some? && HasMetric(last.data.value) && BucketOf(f, last, last.data.value, env) == b {
      assert OpensBucket(recs, |recs| - 1, f, b, env);
    }
    if Opened(init, f, b, env) {
      var i :| 0 <= i < |init| && OpensBucket(init, i, f, b, env);
      assert OpensBucket(recs, i, f, b, env);
    }
    if Opened(recs, f, b, env) {
      var i :| 0 <= i < |recs| && OpensBucket(recs, i, f, b, env);
      if i < |init| {
        assert OpensBucket(init, i, f, b, env);
      }
    }
  }

  /** A bucket exists exactly when some point with a metric falls into it. */
  lemma {:induction false} BuildTableKeys(f: Factor, recs: seq<HealthRecord>, env: Env, b: int)
    ensures b in BucketKeys(BuildTable(f, recs, env)) <==> Opened(recs, f, b, env)
  {
    if |recs| > 0 {
      var init := recs[..|recs| - 1];
      var last := recs[|recs| - 1];
      BuildTableKeys(f, init, env, b);
      OpenedSnoc(recs, f, b, env);
      assert BuildTable(f, recs, env) == AddRecord(BuildTable(f, init, env), f, last, env);
      if last.data.Some? {
        AddReadingKeys(BuildTable(f, init, env), BucketOf(f, last, last.data.value, env), last.data.value, b);
      }
    }
  }

  /** Every bucket built has a metric with at least one value, so each of its statistics exists. */
  lemma {:induction false} BuildTablePopulated(f: Factor, recs: seq<HealthRecord>, env: Env)
    ensures Populated(BuildTable(f, recs, env))
  {
    if |recs| > 0 {
      var last := recs[|recs| - 1];
      BuildTablePopulated(f, recs[..|recs| - 1], env);
      if last.data.Some? {
        AddReadingPopulated(BuildTable(f, recs[..|recs| - 1], env), BucketOf(f, last, last.data.value, env), last.data.value);
      }
    }
  }

  /** The points of one user on one trip, in storage order. */
  function OfTrip(recs: seq<HealthRecord>, userId: string, tripId: string): (r: seq<HealthRecord>)
    ensures forall x :: x in r <==> x in recs && x.userId == userId && x.tripId == Some(tripId)
    ensures |r| <= |recs|
  {
    if |recs| == 0 then []
    else (if recs[0].userId == userId && recs[0].tripId == Some(tripId) then [recs[0]] else []) + OfTrip(recs[1..], userId, tripId)
  }

  /** One bucket's statistics per metric (`{metric}_stats`), in first-append order. */
  type BucketStats = seq<(int, seq<(Metric, Option<Stats>)>)>

  /** The result of `analyze_health_data`: one bucket-statistics table per factor. */
  type Analysis = map<Factor, BucketStats>

  function SummarizeLists(ml: MetricLists): (r: seq<(Metric, Option<Stats>)>)
    ensures |r| == |ml| && forall i :: 0 <= i < |ml| ==> r[i] == (ml[i].0, ComputeStats(ml[i].1))
  {
    if |ml| == 0 then [] else [(ml[0].0, ComputeStats(ml[0].1))] + SummarizeLists(ml[1..])
  }

  /** The stats comprehension over one factor's buckets. */
  function Summarize(t: BucketTable): (r: BucketStats)
    ensures |r| == |t| && forall i :: 0 <= i < |t| ==> r[i] == (t[i].0, SummarizeLists(t[i].1))
  {
    if |t| == 0 then [] else [(t[0].0, SummarizeLists(t[0].1))] + Summarize(t[1..])
  }

  /** In an analysis every `{metric}_stats` entry is a real statistics record, never None. */
  lemma AnalysisStatsExist(f: Factor, recs: seq<HealthRecord>, env: Env)
    ensures forall i, j :: 0 <= i < |BuildTable(f, recs, env)| && 0 <= j < |BuildTable(f, recs, env)[i].1| ==>
              Summarize(BuildTable(f, recs, env))[i].1[j].1.Some?
  {
    BuildTablePopulated(f, recs, env);
  }

  /** The analysis of a sample: every factor's bucket table, summarised. */
  function AnalysisOf(sample: seq<HealthRecord>, env: Env): (r: Analysis)
    ensures r.Keys == {Temperature, Altitude, SpeedXY, SpeedZ}
  {
    map f | f in {Temperature, Altitude, SpeedXY, SpeedZ} :: Summarize(BuildTable(f, sample, env))
  }

  /** One point's readings added to every factor's table, factor by factor. */
  method AddToTables(tables: map<Factor, BucketTable>, rec: HealthRecord, env: Env) returns (t: map<Factor, BucketTable>)
    requires tables.Keys == {Temperature, Altitude, SpeedXY, SpeedZ}
    requires rec.data.Some?
    ensures t.Keys == tables.Keys
    ensures forall f :: f in t ==> t[f] == AddRecord(tables[f], f, rec, env)
  {
    var d := rec.data.value;
    t := tables;
    var j := 0;
    while j < |Factors|
      invariant 0 <= j <= |Factors|
      invariant t.Keys == tables.Keys
      invariant forall k :: 0 <= k < j ==> t[Factors[k]] == AddRecord(tables[Factors[k]], Factors[k], rec, env)
      invariant forall k :: j <= k < |Factors| ==> t[Factors[k]] == tables[Factors[k]]
    {
      var f := Factors[j];
      t := t[f := AddReading(t[f], BucketOf(f, rec, d, env), d)];
      j := j + 1;
    }
    forall f | f in t ensures t[f] == AddRecord(tables[f], f, rec, env) {
      assert f == Factors[0] || f == Factors[1] || f == Factors[2] || f == Factors[3];
    }
  }

  /** An analysis holding every factor's summarised table is the analysis of the sample. */
  lemma SameAnalysis(r: Analysis, sample: seq<HealthRecord>, env: Env)
    requires r.Keys == {Temperature, Altitude, SpeedXY, SpeedZ}
    requires forall f :: f in r ==> r[f] == Summarize(BuildTable(f, sample, env))
    ensures r == AnalysisOf(sample, env)
  {
  }

  class HealthDataHandler {
    /** The `health_data` collection. */
    var records: seq<HealthRecord>

    /** No two stored points share a `(point_id, user_id)` pair. */
    predicate Valid()
      reads this
    {
      Keyed.UniqueKeys(records, PointKey)
    }

    constructor ()
      ensures records == [] && Valid()
    {
      records := [];
    }

    /**
     * `add_health_data`: stamps the point with `userId` and replaces any point with the same
     * `(point_id, user_id)`, so exactly the stamped point is left under that pair.
     */
    method AddHealthData(userId: string, point: HealthRecord) returns (message: string)
      requires Valid()
      modifies this
      ensures records == Keyed.Replace(old(records), PointKey, point.(userId := userId))
      ensures Keyed.WithKey(records, PointKey, (point.pointId, userId)) == [point.(userId := userId)]
      ensures message == "Health data added successfully"
      ensures Valid()
    {
      var stamped := point.(userId := userId);
      Keyed.UniqueKeysWithKey(records, PointKey, PointKey(stamped));
      Keyed.ReplaceSpec(records, PointKey, stamped, PointKey(stamped));
      Keyed.ReplaceKeepsUnique(records, PointKey, stamped);
      var i := Keyed.FirstWithKey(records, PointKey, PointKey(stamped));
      if i >= 0 {
        records := records[..i] + records[i + 1..];
      }
      records := records + [stamped];
      message := "Health data added successfully";
    }

    /** `get_health_data`: every stored point of the user on the trip, and nothing else. */
    method GetHealthData(userId: string, tripId: string) returns (r: seq<HealthRecord>)
      ensures forall x :: x in r <==> x in records && x.userId == userId && x.tripId == Some(tripId)
      ensures r == OfTrip(records, userId, tripId)
    {
      r := OfTrip(records, userId, tripId);
    }

    /**
     * `analyze_health_data`: the time range is accepted and ignored; `sample` is the
     * random sample of at most ten of the user's points. Every factor gets the statistics
     * of the bucket table built from the sample.
     */
    method AnalyzeHealthData(userId: string, startTime: string, endTime: string, sample: seq<HealthRecord>, env: Env)
      returns (r: Analysis)
      requires multiset(sample) <= multiset(Keyed.WithKey(records, UserOf, userId))
      requires |sample| == if |Keyed.WithKey(records, UserOf, userId)| < 10 then |Keyed.WithKey(records, UserOf, userId)| else 10
      ensures r.Keys == {Temperature, Altitude, SpeedXY, SpeedZ}
      ensures forall f :: f in r ==> r[f] == Summarize(BuildTable(f, sample, env))
      ensures r == AnalysisOf(sample, env)
    {
      var tables: map<Factor, BucketTable> := map[Temperature := [], Altitude := [], SpeedXY := [], SpeedZ := []];
      var i := 0;
      while i < |sample|
        invariant 0 <= i <= |sample|
        invariant tables.Keys == {Temperature, Altitude, SpeedXY, SpeedZ}
        invariant forall f :: f in tables ==> tables[f] == BuildTable(f, sample[..i], env)
      {
        assert sample[..i + 1][..i] == sample[..i];
        if sample[i].data.Some? {
          tables := AddToTables(tables, sample[i], env);
        }
        i := i + 1;
      }
      assert sample[..i] == sample;
      r := map f | f in tables :: Summarize(tables[f]);
      SameAnalysis(r, sample, env);
    }
  }
}
