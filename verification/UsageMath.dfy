/** Aggregation of resource samples (`sdk/usage_cost_math.py`), over real numbers. */
module UsageMath {
  import opened Sorting
  import opened Wrappers

  function Max(a: real, b: real): real {
    if a >= b then a else b
  }

  function Min(a: real, b: real): real {
    if a <= b then a else b
  }

  // ----- summaries of a list of values -----

  /** The largest of `start` and all values. */
  function Peak(start: real, values: seq<real>): (p: real)
    ensures p >= start && (forall v :: v in values ==> v <= p) && (p == start || p in values)
  {
    if values == [] then start
    else
      var n := |values| - 1;
      assert values == values[..n] + [values[n]];
      Max(Peak(start, values[..n]), values[n])
  }

  function Largest(values: seq<real>): (m: real)
    requires values != []
    ensures m in values && forall v :: v in values ==> v <= m
  {
    Peak(values[0], values)
  }

  function Smallest(values: seq<real>): (m: real)
    requires values != []
    ensures m in values && forall v :: v in values ==> m <= v
  {
    if |values| == 1 then values[0]
    else
      var n := |values| - 1;
      assert values == values[..n] + [values[n]];
      Min(Smallest(values[..n]), values[n])
  }

  function Sum(values: seq<real>): real {
    if values == [] then 0.0 else values[0] + Sum(values[1..])
  }

  /** `_avg_peak`. */
  function AvgPeak(values: seq<real>): (Option<real>, Option<real>) {
    if values == [] then (None, None) else (Some(Sum(values) / |values| as real), Some(Largest(values)))
  }

  /** Multiplication, named so that proofs can treat a product as one value. */
  function Times(a: real, b: real): real {
    a * b
  }

  lemma TimesWithin(n: real, x: real)
    requires n >= 0.0 && 0.0 <= x <= 1.0
    ensures 0.0 <= Times(n, x) <= n
  {
    assert n * x >= 0.0;
    assert n * (1.0 - x) >= 0.0;
    assert n * (1.0 - x) == n - n * x;
  }

  lemma TimesMonotone(d: real, x: real, y: real)
    requires d >= 0.0 && x <= y
    ensures Times(d, x) <= Times(d, y)
  {
    assert d * (y - x) >= 0.0;
    assert d * (y - x) == d * y - d * x;
  }

  lemma TimesUnits(d: real)
    ensures Times(d, 0.0) == 0.0 && Times(d, 1.0) == d
  {
  }

  /** Linear interpolation between the neighbours of position `k`. */
  function Interpolate(ordered: seq<real>, k: real): real
    requires ordered != [] && 0.0 <= k <= (|ordered| - 1) as real
  {
    var lo := k.Floor;
    var hi := if lo + 1 < |ordered| then lo + 1 else |ordered| - 1;
    if lo == hi then ordered[lo] else ordered[lo] + Times(ordered[hi] - ordered[lo], k - lo as real)
  }

  function Position(n: nat, pct: real): (k: real)
    requires n > 0 && 0.0 <= pct <= 100.0
    ensures 0.0 <= k <= (n - 1) as real
  {
    TimesWithin((n - 1) as real, pct / 100.0);
    Times((n - 1) as real, pct / 100.0)
  }

  function Percentile(values: seq<real>, pct: real): Option<real> {
    if values == [] then None
    else if pct <= 0.0 then Some(Smallest(values))
    else if pct >= 100.0 then Some(Largest(values))
    else Some(Interpolate(Sort(values), Position(|values|, pct)))
  }

  // ----- the percentile -----

  lemma SortedEnds(values: seq<real>)
    requires values != []
    ensures Sort(values)[0] == Smallest(values) && Sort(values)[|values| - 1] == Largest(values)
  {
    hide Sort, Smallest, Largest;
    var s := Sort(values);
    SortSorted(values);
    SameElements(s, values, s[0]);
    SameElements(s, values, s[|s| - 1]);
    SameElements(s, values, Smallest(values));
    SameElements(s, values, Largest(values));
  }

  function Clamp(pct: real): real {
    Min(100.0, Max(0.0, pct))
  }

  /** Both clamps are the ends of one and the same interpolation. */
  lemma PercentileInterpolates(values: seq<real>, pct: real)
    requires values != []
    ensures Percentile(values, pct) == Some(Interpolate(Sort(values), Position(|values|, Clamp(pct))))
  {
    hide Sort, Smallest, Largest, Times;
    SortedEnds(values);
    TimesUnits((|values| - 1) as real);
    if pct <= 0.0 {
      assert Position(|values|, 0.0) == 0.0;
      AtRank(Sort(values), 0, 0.0);
    } else if pct >= 100.0 {
      assert Position(|values|, 100.0) == (|values| - 1) as real;
      AtRank(Sort(values), |values| - 1, (|values| - 1) as real);
    }
  }

  lemma AtRank(ordered: seq<real>, i: nat, k: real)
    requires i < |ordered| && k == i as real
    ensures Interpolate(ordered, k) == ordered[i]
  {
    hide Times;
    assert k.Floor == i;
    assert k - i as real == 0.0;
    if i + 1 < |ordered| {
      TimesUnits(ordered[i + 1] - ordered[i]);
    }
  }

  lemma InterpolateWithin(ordered: seq<real>, k: real)
    requires ordered != [] && Sorted(ordered) && 0.0 <= k <= (|ordered| - 1) as real
    ensures ordered[k.Floor] <= Interpolate(ordered, k)
    ensures k.Floor + 1 < |ordered| ==> Interpolate(ordered, k) <= ordered[k.Floor + 1]
    ensures Interpolate(ordered, k) <= ordered[|ordered| - 1]
  {
    hide Times;
    var lo := k.Floor;
    if lo + 1 < |ordered| {
      TimesWithin(ordered[lo + 1] - ordered[lo], k - lo as real);
    }
  }

  lemma InterpolateMonotone(ordered: seq<real>, j: real, k: real)
    requires ordered != [] && Sorted(ordered) && 0.0 <= j <= k <= (|ordered| - 1) as real
    ensures Interpolate(ordered, j) <= Interpolate(ordered, k)
  {
    hide Times;
    var lo := j.Floor;
    if lo == k.Floor {
      if lo + 1 < |ordered| {
        TimesMonotone(ordered[lo + 1] - ordered[lo], j - lo as real, k - lo as real);
      }
    } else {
      hide Interpolate;
      InterpolateWithin(ordered, j);
      InterpolateWithin(ordered, k);
      assert lo + 1 <= k.Floor;
    }
  }

  /** The percentile grows with the percentage, across segments and clamps. */
  lemma PercentileMonotone(values: seq<real>, p: real, q: real)
    requires values != [] && p <= q
    ensures Percentile(values, p).value <= Percentile(values, q).value
  {
    hide Interpolate, Sort, Percentile, Position;
    PercentileInterpolates(values, p);
    PercentileInterpolates(values, q);
    SortSorted(values);
    PositionMonotone(|values|, Clamp(p), Clamp(q));
    InterpolateMonotone(Sort(values), Position(|values|, Clamp(p)), Position(|values|, Clamp(q)));
  }

  lemma PositionMonotone(n: nat, p: real, q: real)
    requires n > 0 && 0.0 <= p <= q <= 100.0
    ensures Position(n, p) <= Position(n, q)
  {
    hide Times;
    TimesMonotone((n - 1) as real, p / 100.0, q / 100.0);
  }

  lemma PercentileBounded(values: seq<real>, pct: real)
    requires values != []
    ensures Smallest(values) <= Percentile(values, pct).value <= Largest(values)
  {
    hide Percentile;
    PercentileMonotone(values, Min(pct, 0.0), pct);
    PercentileMonotone(values, pct, Max(pct, 100.0));
    PercentileEnds(values, Min(pct, 0.0), Max(pct, 100.0));
  }

  lemma PercentileEnds(values: seq<real>, low: real, high: real)
    requires values != [] && low <= 0.0 && high >= 100.0
    ensures Percentile(values, low) == Some(Smallest(values)) && Percentile(values, high) == Some(Largest(values))
  {
  }

  lemma PercentileOfPermutation(a: seq<real>, b: seq<real>, pct: real)
    requires multiset(a) == multiset(b)
    ensures Percentile(a, pct) == Percentile(b, pct)
  {
    SameSize(a, b);
    if a != [] {
      hide Percentile, Interpolate, Sort;
      SortOfPermutation(a, b);
      PercentileInterpolates(a, pct);
      PercentileInterpolates(b, pct);
    }
  }

  // ----- the percentile written out -----

  /** Where a percentage stands among the ranks 0 to n - 1. */
  lemma PositionIs(n: nat, pct: real, x: real)
    requires n >= 2 && x == (n - 1) as real * pct / 100.0 && 0.0 <= x <= (n - 1) as real
    ensures 0.0 <= pct <= 100.0 && Position(n, pct) == x
  {
    var m := (n - 1) as real;
    var f := pct / 100.0;
    assert m * f == x;
    assert f < 0.0 ==> m * f < 0.0;
    assert f > 1.0 ==> m * f > m;
  }

  lemma OrderedIsSort(values: seq<real>, s: seq<real>)
    requires multiset(s) == multiset(values) && forall j, k :: 0 <= j < k < |s| ==> s[j] <= s[k]
    ensures Sort(values) == s && |s| == |values|
  {
    SameSize(s, values);
    SortSorted(values);
    SortedUnique(Sort(values), s);
  }

  /**
   The values in ascending order stand at the ranks 0 to n - 1, and the percentage at
   x = (n - 1) * pct / 100. Between two ranks the percentile moves linearly from one value
   to the next.
  */
  lemma PercentileBetweenRanks(values: seq<real>, s: seq<real>, pct: real, i: nat, x: real)
    requires multiset(s) == multiset(values) && forall j, k :: 0 <= j < k < |s| ==> s[j] <= s[k]
    requires i + 1 < |s| && x == (|values| - 1) as real * pct / 100.0 && i as real <= x <= (i + 1) as real
    ensures Percentile(values, pct) == Some(s[i] + (s[i + 1] - s[i]) * (x - i as real))
  {
    hide Sort, Percentile, Position, Interpolate;
    OrderedIsSort(values, s);
    PositionIs(|values|, pct, x);
    PercentileInterpolates(values, pct);
    assert Clamp(pct) == pct;
    BetweenRanks(s, i, x);
  }

  lemma BetweenRanks(ordered: seq<real>, i: nat, k: real)
    requires i + 1 < |ordered| && i as real <= k <= (i + 1) as real
    ensures Interpolate(ordered, k) == ordered[i] + (ordered[i + 1] - ordered[i]) * (k - i as real)
  {
    if k == (i + 1) as real {
      AtRank(ordered, i + 1, k);
    } else {
      assert k.Floor == i;
    }
  }

  /** At an exact rank the percentile is the value of that rank; one value is every percentile of itself. */
  lemma PercentileAtRank(values: seq<real>, s: seq<real>, pct: real, i: nat)
    requires multiset(s) == multiset(values) && forall j, k :: 0 <= j < k < |s| ==> s[j] <= s[k]
    requires i < |s| && (|values| - 1) as real * pct / 100.0 == i as real
    ensures Percentile(values, pct) == Some(s[i])
  {
    hide Sort, Percentile, Position;
    OrderedIsSort(values, s);
    PercentileInterpolates(values, pct);
    if |values| == 1 {
      assert Position(1, Clamp(pct)) == 0.0 by { OnlyRank(Clamp(pct)); }
    } else {
      PositionIs(|values|, pct, i as real);
      assert Clamp(pct) == pct;
    }
    AtRank(s, i, i as real);
  }

  lemma OnlyRank(pct: real)
    requires 0.0 <= pct <= 100.0
    ensures Position(1, pct) == 0.0
  {
  }

  // ----- averages -----

  lemma OneMore(lo: real, n: real, v: real, sum: real)
    requires lo * n <= sum && lo <= v
    ensures lo * (n + 1.0) <= v + sum
  {
    assert lo * (n + 1.0) == lo * n + lo;
  }

  lemma {:induction false} SumAtLeast(values: seq<real>, lo: real)
    requires forall v :: v in values ==> lo <= v
    ensures lo * |values| as real <= Sum(values)
    decreases |values|
  {
    if values != [] {
      forall v | v in values[1..] ensures lo <= v {
        assert v in values;
      }
      SumAtLeast(values[1..], lo);
      assert values[0] in values;
      OneMore(lo, |values[1..]| as real, values[0], Sum(values[1..]));
    }
  }

  lemma OneMoreAtMost(hi: real, n: real, v: real, sum: real)
    requires sum <= hi * n && v <= hi
    ensures v + sum <= hi * (n + 1.0)
  {
    assert hi * (n + 1.0) == hi * n + hi;
  }

  lemma {:induction false} SumAtMost(values: seq<real>, hi: real)
    requires forall v :: v in values ==> v <= hi
    ensures Sum(values) <= hi * |values| as real
    decreases |values|
  {
    if values != [] {
      forall v | v in values[1..] ensures v <= hi {
        assert v in values;
      }
      SumAtMost(values[1..], hi);
      assert values[0] in values;
      OneMoreAtMost(hi, |values[1..]| as real, values[0], Sum(values[1..]));
    }
  }

  lemma AverageBounds(values: seq<real>, lo: real, hi: real)
    requires values != [] && forall v :: v in values ==> lo <= v <= hi
    ensures lo <= Sum(values) / |values| as real <= hi
  {
    SumAtLeast(values, lo);
    SumAtMost(values, hi);
    Quotient(lo, Sum(values), |values| as real, hi);
  }

  lemma Quotient(lo: real, s: real, n: real, hi: real)
    requires n > 0.0 && lo * n <= s <= hi * n
    ensures lo <= s / n <= hi
  {
    var q := s / n;
    assert q * n == s;
    assert lo > q ==> lo * n > q * n;
    assert hi < q ==> hi * n < q * n;
  }

  lemma {:induction false} SumOfInsert(x: real, s: seq<real>)
    ensures Sum(Insert(x, s)) == x + Sum(s)
    decreases |s|
  {
    if s == [] || x <= s[0] {
      assert ([x] + s)[1..] == s;
    } else {
      SumOfInsert(x, s[1..]);
      assert ([s[0]] + Insert(x, s[1..]))[1..] == Insert(x, s[1..]);
    }
  }

  lemma {:induction false} SumOfSort(s: seq<real>)
    ensures Sum(Sort(s)) == Sum(s)
    decreases |s|
  {
    if s != [] {
      SumOfSort(s[1..]);
      SumOfInsert(s[0], Sort(s[1..]));
    }
  }

  lemma LargestOfPermutation(a: seq<real>, b: seq<real>)
    requires a != [] && b != [] && multiset(a) == multiset(b)
    ensures Largest(a) == Largest(b)
  {
    hide Largest;
    SameElements(a, b, Largest(a));
    SameElements(a, b, Largest(b));
  }

  lemma SumOfPermutation(a: seq<real>, b: seq<real>)
    requires multiset(a) == multiset(b)
    ensures Sum(a) == Sum(b)
  {
    hide Sort, Sum;
    SortOfPermutation(a, b);
    SumOfSort(a);
    SumOfSort(b);
  }

  lemma AvgPeakOfPermutation(a: seq<real>, b: seq<real>)
    requires multiset(a) == multiset(b)
    ensures AvgPeak(a) == AvgPeak(b)
  {
    hide Sum, Largest;
    SameSize(a, b);
    if a != [] {
      SumOfPermutation(a, b);
      LargestOfPermutation(a, b);
    }
  }

  // ----- samples -----

  /** A heartbeat sample: its time in seconds, the CPU percentage of the process tree, the memory in MB and the other readings. */
  datatype Sample = Sample(
    time: Option<real>,
    cpu: Option<real>,
    mem: Option<real>,
    gpuUtil: Option<real>,
    gpuMem: Option<real>,
    netRx: Option<real>,
    netTx: Option<real>,
    gpuPower: Option<real>,
    gpuTemp: Option<real>)

  datatype Gauge = Cpu | Mem | GpuUtil | GpuMem | NetRx | NetTx | GpuPower | GpuTemp

  /** The readings of all samples, one list per gauge, and the memory readings that have a time. */
  datatype Series = Series(
    cpu: seq<real>,
    mem: seq<real>,
    gpuUtil: seq<real>,
    gpuMem: seq<real>,
    netRx: seq<real>,
    netTx: seq<real>,
    gpuPower: seq<real>,
    gpuTemp: seq<real>,
    points: seq<Point>)

  datatype Usage = Usage(
    memoryPeakKb: int,
    memoryMbSeconds: real,
    sampleCount: nat,
    cpuAvg: Option<real>,
    cpuPeak: Option<real>,
    cpuP95: Option<real>,
    memoryAvg: Option<real>,
    memoryPeak: Option<real>,
    gpuUtilAvg: Option<real>,
    gpuUtilPeak: Option<real>,
    gpuMemAvg: Option<real>,
    gpuMemPeak: Option<real>,
    gpuPowerAvg: Option<real>,
    gpuPowerPeak: Option<real>,
    gpuTempPeak: Option<real>,
    networkRx: Option<int>,
    networkTx: Option<int>)

  /** `normalize_cpu_tree_percent`; `cpus` is the effective CPU count. */
  function NormalizeCpu(raw: real, cpus: int): (pct: real)
    ensures 0.0 <= pct <= 100.0
    ensures 0.0 <= raw <= 100.0 ==> pct == raw
    ensures raw < 0.0 ==> pct == 0.0
    ensures raw > 100.0 && cpus < 1 ==> pct == 100.0
    ensures raw > 100.0 && cpus >= 1 ==> pct == Min(100.0, raw / cpus as real)
  {
    if raw <= 0.0 then 0.0
    else if raw <= 100.0 then Min(100.0, raw)
    else Min(100.0, Max(0.0, raw / (if cpus >= 1 then cpus else 1) as real))
  }

  /** What a sample contributes to a gauge: its reading, for the CPU normalised. */
  function Reading(x: Sample, gauge: Gauge, cpus: int): Option<real> {
    match gauge
    case Cpu => if x.cpu.None? then None else Some(NormalizeCpu(x.cpu.value, cpus))
    case Mem => x.mem
    case GpuUtil => x.gpuUtil
    case GpuMem => x.gpuMem
    case NetRx => x.netRx
    case NetTx => x.netTx
    case GpuPower => x.gpuPower
    case GpuTemp => x.gpuTemp
  }

  function PointOf(x: Sample): Option<Point> {
    if x.mem.None? || x.time.None? then None else Some(Point(x.time.value, x.mem.value))
  }

  /** The values that `f` finds in the samples, in order. */
  function Collect<T>(f: Sample -> Option<T>, samples: seq<Sample>): seq<T> {
    if samples == [] then []
    else
      var n := |samples| - 1;
      Collect(f, samples[..n]) + (if f(samples[n]).None? then [] else [f(samples[n]).value])
  }

  function Values(samples: seq<Sample>, gauge: Gauge, cpus: int): seq<real> {
    Collect((x: Sample) => Reading(x, gauge, cpus), samples)
  }

  function Points(samples: seq<Sample>): seq<Point> {
    Collect(PointOf, samples)
  }

  /** One trapezoid of the memory integral. */
  function Trapezoid(a: Point, b: Point): real {
    Times((a.v + b.v) / 2.0, Max(0.0, b.t - a.t))
  }

  function Area(points: seq<Point>): real {
    if |points| < 2 then 0.0
    else
      var n := |points| - 1;
      Area(points[..n]) + Trapezoid(points[n - 1], points[n])
  }

  /** Half an average gap, which the last value covers beyond its sample. */
  function Tail(n: nat, runtime: real): real
    requires n > 0
  {
    Max(runtime / n as real * 0.5, 0.0)
  }

  function MemorySeconds(points: seq<Point>, runtime: real, peak: real): real {
    var n := |points|;
    if n == 1 then Times(points[0].v, Max(runtime, 0.0))
    else if n >= 2 then Area(points) + Times(points[n - 1].v, Tail(n, runtime))
    else if peak > 0.0 then Times(peak, Max(runtime, 0.0))
    else 0.0
  }

  function SeriesOf(samples: seq<Sample>, cpus: int): Series {
    Series(Values(samples, Cpu, cpus), Values(samples, Mem, cpus), Values(samples, GpuUtil, cpus), Values(samples, GpuMem, cpus),
           Values(samples, NetRx, cpus), Values(samples, NetTx, cpus), Values(samples, GpuPower, cpus),
           Values(samples, GpuTemp, cpus), Points(samples))
  }

  /** `int(...)`, which cuts towards zero. */
  function Truncate(x: real): int {
    if x >= 0.0 then x.Floor else -(-x).Floor
  }

  function Total(values: seq<real>): Option<int> {
    if values == [] then None else Some(Truncate(Largest(values)))
  }

  function Summarise(all: Series, count: nat, runtime: real, peak: real): Usage {
    var (memAvg, memPeak) := AvgPeak(all.mem);
    var memPeak' := if memPeak.None? && peak > 0.0 then Some(peak) else memPeak;
    var memAvg' := if memAvg.None? && memPeak'.Some? then memPeak' else memAvg;
    Usage(if peak > 0.0 then (peak * 1024.0).Floor else 0, MemorySeconds(SortByTime(all.points), runtime, peak), count,
          AvgPeak(all.cpu).0, AvgPeak(all.cpu).1, Percentile(all.cpu, 95.0), memAvg', memPeak',
          AvgPeak(all.gpuUtil).0, AvgPeak(all.gpuUtil).1, AvgPeak(all.gpuMem).0, AvgPeak(all.gpuMem).1,
          AvgPeak(all.gpuPower).0, AvgPeak(all.gpuPower).1, AvgPeak(all.gpuTemp).1, Total(all.netRx), Total(all.netTx))
  }

  function PeakMb(mem: seq<real>, fallbackMemory: Option<real>): real {
    Peak(if fallbackMemory.Some? then fallbackMemory.value else 0.0, mem)
  }

  /** `aggregate_samples`. */
  function Aggregate(samples: seq<Sample>, runtime: real, fallbackMemory: Option<real>, cpus: int): Usage {
    Summarise(SeriesOf(samples, cpus), |samples|, runtime, PeakMb(Values(samples, Mem, cpus), fallbackMemory))
  }

  lemma CollectNext<T>(f: Sample -> Option<T>, samples: seq<Sample>, i: nat)
    requires i < |samples|
    ensures Collect(f, samples[..i + 1])
            == Collect(f, samples[..i]) + (if f(samples[i]).None? then [] else [f(samples[i]).value])
  {
    assert samples[..i + 1][..i] == samples[..i];
  }

  function Extend<T>(values: seq<T>, reading: Option<T>): seq<T> {
    if reading.None? then values else values + [reading.value]
  }

  /** The lists after one more sample. */
  function ExtendAll(all: Series, x: Sample, cpus: int): Series {
    Series(Extend(all.cpu, Reading(x, Cpu, cpus)), Extend(all.mem, x.mem), Extend(all.gpuUtil, x.gpuUtil),
           Extend(all.gpuMem, x.gpuMem), Extend(all.netRx, x.netRx), Extend(all.netTx, x.netTx),
           Extend(all.gpuPower, x.gpuPower), Extend(all.gpuTemp, x.gpuTemp), Extend(all.points, PointOf(x)))
  }

  lemma ValuesNext(samples: seq<Sample>, i: nat, gauge: Gauge, cpus: int)
    requires i < |samples|
    ensures Values(samples[..i + 1], gauge, cpus) == Extend(Values(samples[..i], gauge, cpus), Reading(samples[i], gauge, cpus))
  {
    hide Collect, Reading;
    CollectNext((x: Sample) => Reading(x, gauge, cpus), samples, i);
  }

  lemma SeriesNext(samples: seq<Sample>, i: nat, cpus: int)
    requires i < |samples|
    ensures SeriesOf(samples[..i + 1], cpus) == ExtendAll(SeriesOf(samples[..i], cpus), samples[i], cpus)
  {
    hide Values, Collect, NormalizeCpu, Extend, PointOf;
    forall gauge {
      ValuesNext(samples, i, gauge, cpus);
    }
    PointsNext(samples, i);
  }

  lemma PointsNext(samples: seq<Sample>, i: nat)
    requires i < |samples|
    ensures Points(samples[..i + 1]) == Extend(Points(samples[..i]), PointOf(samples[i]))
  {
    hide Collect, PointOf;
    CollectNext(PointOf, samples, i);
  }

  lemma SeriesNone(cpus: int)
    ensures SeriesOf([], cpus) == Series([], [], [], [], [], [], [], [], [])
  {
  }

  method CollectSeries(samples: seq<Sample>, fallbackMemory: Option<real>, cpus: int) returns (all: Series, peak: real)
    ensures all == SeriesOf(samples, cpus)
    ensures peak == PeakMb(Values(samples, Mem, cpus), fallbackMemory)
  {
    hide SeriesOf, ExtendAll;
    all := Series([], [], [], [], [], [], [], [], []);
    peak := if fallbackMemory.Some? then fallbackMemory.value else 0.0;
    ghost var start := peak;
    SeriesNone(cpus);
    assert samples[..0] == [];
    for i := 0 to |samples|
      invariant all == SeriesOf(samples[..i], cpus)
      invariant peak == Peak(start, all.mem)
    {
      SeriesNext(samples, i, cpus);
      if samples[i].mem.Some? {
        PeakNext(start, all.mem, samples[i].mem.value);
        peak := Max(peak, samples[i].mem.value);
      }
      ExtendMem(all, samples[i], cpus);
      all := AppendRow(all, samples[i], cpus);
    }
    assert samples[..|samples|] == samples;
    MemOfSeries(samples, cpus);
  }

  lemma ExtendMem(all: Series, x: Sample, cpus: int)
    ensures ExtendAll(all, x, cpus).mem == Extend(all.mem, x.mem)
  {
  }

  lemma MemOfSeries(samples: seq<Sample>, cpus: int)
    ensures SeriesOf(samples, cpus).mem == Values(samples, Mem, cpus)
  {
  }

  /** A reading that is present is appended to its list. */
  method Append<T>(values: seq<T>, reading: Option<T>) returns (out: seq<T>)
    ensures out == Extend(values, reading)
  {
    out := values;
    if reading.Some? {
      out := out + [reading.value];
    }
  }

  /** The body of the sample loop. */
  method AppendRow(all: Series, row: Sample, cpus: int) returns (out: Series)
    ensures out == ExtendAll(all, row, cpus)
  {
    hide NormalizeCpu, Extend;
    var cpu := Append(all.cpu, if row.cpu.Some? then Some(NormalizeCpu(row.cpu.value, cpus)) else None);
    var mem := Append(all.mem, row.mem);
    var points := Append(all.points, if row.mem.Some? && row.time.Some? then Some(Point(row.time.value, row.mem.value)) else None);
    var gpuUtil := Append(all.gpuUtil, row.gpuUtil);
    var gpuMem := Append(all.gpuMem, row.gpuMem);
    var netRx := Append(all.netRx, row.netRx);
    var netTx := Append(all.netTx, row.netTx);
    var gpuPower := Append(all.gpuPower, row.gpuPower);
    var gpuTemp := Append(all.gpuTemp, row.gpuTemp);
    out := Series(cpu, mem, gpuUtil, gpuMem, netRx, netTx, gpuPower, gpuTemp, points);
  }

  lemma PeakNext(start: real, values: seq<real>, v: real)
    ensures Peak(start, values + [v]) == Max(Peak(start, values), v)
  {
    assert (values + [v])[..|values|] == values;
  }

  method IntegrateMemory(points: seq<Point>, runtime: real, peak: real) returns (total: real)
    ensures total == MemorySeconds(points, runtime, peak)
  {
    hide Times;
    total := 0.0;
    if |points| == 1 {
      total := Times(points[0].v, Max(runtime, 0.0));
    } else if |points| >= 2 {
      for i := 0 to |points| - 1
        invariant total == Area(points[..i + 1])
      {
        var a, b := points[i], points[i + 1];
        assert points[..i + 2][..i + 1] == points[..i + 1];
        total := total + Times((a.v + b.v) / 2.0, Max(0.0, b.t - a.t));
      }
      assert points[..|points|] == points;
      var gap := runtime / |points| as real;
      total := total + Times(points[|points| - 1].v, Max(gap * 0.5, 0.0));
    } else if peak > 0.0 {
      total := Times(peak, Max(runtime, 0.0));
    }
  }

  method AggregateSamples(samples: seq<Sample>, runtime: real, fallbackMemory: Option<real>, cpus: int) returns (u: Usage)
    ensures u == Aggregate(samples, runtime, fallbackMemory, cpus)
  {
    hide SeriesOf, Values, SortByTime, Sum, Largest, Percentile, MemorySeconds, PeakMb, Truncate;
    var all, peak := CollectSeries(samples, fallbackMemory, cpus);
    var (cpuAvg, cpuPeak) := AvgPeak(all.cpu);
    var (memAvg, memPeak) := AvgPeak(all.mem);
    if memPeak.None? && peak > 0.0 {
      memPeak := Some(peak);
    }
    if memAvg.None? && memPeak.Some? {
      memAvg := memPeak;
    }
    var (gpuUtilAvg, gpuUtilPeak) := AvgPeak(all.gpuUtil);
    var (gpuMemAvg, gpuMemPeak) := AvgPeak(all.gpuMem);
    var (gpuPowerAvg, gpuPowerPeak) := AvgPeak(all.gpuPower);
    var (_, gpuTempPeak) := AvgPeak(all.gpuTemp);
    var total := IntegrateMemory(SortByTime(all.points), runtime, peak);
    u := Usage(if peak > 0.0 then (peak * 1024.0).Floor else 0, total, |samples|,
               cpuAvg, cpuPeak, Percentile(all.cpu, 95.0), memAvg, memPeak,
               gpuUtilAvg, gpuUtilPeak, gpuMemAvg, gpuMemPeak, gpuPowerAvg, gpuPowerPeak, gpuTempPeak,
               Total(all.netRx), Total(all.netTx));
  }

  /** The average of every gauge lies between its smallest and its largest reading, and the peak is the largest. */
  lemma AverageWithinReadings(values: seq<real>)
    requires values != []
    ensures var (avg, peak) := AvgPeak(values);
      avg.Some? && peak.Some? && Smallest(values) <= avg.value <= peak.value && peak.value in values
      && forall v :: v in values ==> v <= peak.value
  {
    hide Sum, Smallest, Largest;
    AverageBounds(values, Smallest(values), Largest(values));
  }

  // ----- the order of the samples does not matter -----

  lemma {:induction false} CollectAppend<T>(f: Sample -> Option<T>, a: seq<Sample>, b: seq<Sample>)
    ensures Collect(f, a + b) == Collect(f, a) + Collect(f, b)
    decreases |b|
  {
    if b == [] {
      assert a + b == a;
    } else {
      var n := |b| - 1;
      assert (a + b)[..|a + b| - 1] == a + b[..n];
      CollectAppend(f, a, b[..n]);
    }
  }

  lemma SplitAt<T>(b: seq<T>, x: T) returns (i: nat)
    requires x in b
    ensures i < |b| && b == b[..i] + [x] + b[i + 1..]
    ensures multiset(b) == multiset(b[..i] + b[i + 1..]) + multiset{x}
  {
    i :| 0 <= i < |b| && b[i] == x;
    assert b == b[..i] + [x] + b[i + 1..];
  }

  /** A sample contributes its readings wherever it stands. */
  lemma CollectSplit<T>(f: Sample -> Option<T>, b: seq<Sample>, i: nat)
    requires i < |b|
    ensures multiset(Collect(f, b)) == multiset(Collect(f, b[..i] + b[i + 1..])) + multiset(Collect(f, [b[i]]))
  {
    hide Collect;
    assert b == b[..i] + [b[i]] + b[i + 1..];
    CollectAppend(f, b[..i], b[i + 1..]);
    CollectAppend(f, b[..i] + [b[i]], b[i + 1..]);
    CollectAppend(f, b[..i], [b[i]]);
  }

  lemma {:induction false} CollectOfPermutation<T>(f: Sample -> Option<T>, a: seq<Sample>, b: seq<Sample>)
    requires multiset(a) == multiset(b)
    ensures multiset(Collect(f, a)) == multiset(Collect(f, b))
    decreases |a|
  {
    hide Collect;
    SameSize(a, b);
    if a == [] {
      assert b == [];
    } else {
      SameElements(a, b, a[0]);
      var i := SplitAt(b, a[0]);
      var rest, others := a[..0] + a[1..], b[..i] + b[i + 1..];
      SameWithout(a, b, i);
      CollectOfPermutation(f, rest, others);
      CollectSplit(f, a, 0);
      CollectSplit(f, b, i);
    }
  }

  lemma SameWithout<T>(a: seq<T>, b: seq<T>, i: nat)
    requires a != [] && i < |b| && b[i] == a[0] && multiset(a) == multiset(b)
    ensures multiset(a[..0] + a[1..]) == multiset(b[..i] + b[i + 1..])
  {
    assert a == [a[0]] + a[1..] && a[..0] + a[1..] == a[1..];
    assert b == b[..i] + [b[i]] + b[i + 1..];
    assert multiset(a[1..]) == multiset(a) - multiset{a[0]};
    assert multiset(b[..i] + b[i + 1..]) == multiset(b) - multiset{b[i]};
  }

  lemma PeakOfPermutation(start: real, a: seq<real>, b: seq<real>)
    requires multiset(a) == multiset(b)
    ensures Peak(start, a) == Peak(start, b)
  {
    hide Peak;
    SameElements(a, b, Peak(start, a));
    SameElements(a, b, Peak(start, b));
  }

  /** Two collections of readings that differ in order only. */
  ghost predicate SameReadings(a: Series, b: Series) {
    && multiset(a.cpu) == multiset(b.cpu) && multiset(a.mem) == multiset(b.mem)
    && multiset(a.gpuUtil) == multiset(b.gpuUtil) && multiset(a.gpuMem) == multiset(b.gpuMem)
    && multiset(a.netRx) == multiset(b.netRx) && multiset(a.netTx) == multiset(b.netTx)
    && multiset(a.gpuPower) == multiset(b.gpuPower) && multiset(a.gpuTemp) == multiset(b.gpuTemp)
    && multiset(a.points) == multiset(b.points)
  }

  lemma ValuesOfPermutation(a: seq<Sample>, b: seq<Sample>, gauge: Gauge, cpus: int)
    requires multiset(a) == multiset(b)
    ensures multiset(Values(a, gauge, cpus)) == multiset(Values(b, gauge, cpus))
  {
    hide Collect, Reading;
    CollectOfPermutation((x: Sample) => Reading(x, gauge, cpus), a, b);
  }

  lemma SeriesOfPermutation(a: seq<Sample>, b: seq<Sample>, cpus: int)
    requires multiset(a) == multiset(b)
    ensures SameReadings(SeriesOf(a, cpus), SeriesOf(b, cpus))
  {
    hide Collect, Values;
    forall gauge {
      ValuesOfPermutation(a, b, gauge, cpus);
    }
    CollectOfPermutation(PointOf, a, b);
  }

  lemma TotalOfPermutation(a: seq<real>, b: seq<real>)
    requires multiset(a) == multiset(b)
    ensures Total(a) == Total(b)
  {
    hide Largest, Truncate;
    SameSize(a, b);
    if a != [] {
      LargestOfPermutation(a, b);
    }
  }

  lemma SummariseOfPermutation(a: Series, b: Series, count: nat, runtime: real, peak: real)
    requires SameReadings(a, b) && DistinctTimes(multiset(a.points))
    ensures Summarise(a, count, runtime, peak) == Summarise(b, count, runtime, peak)
  {
    hide AvgPeak, Percentile, MemorySeconds, SortByTime, DistinctTimes, Total;
    AvgPeakOfPermutation(a.cpu, b.cpu);
    AvgPeakOfPermutation(a.mem, b.mem);
    AvgPeakOfPermutation(a.gpuUtil, b.gpuUtil);
    AvgPeakOfPermutation(a.gpuMem, b.gpuMem);
    AvgPeakOfPermutation(a.gpuPower, b.gpuPower);
    AvgPeakOfPermutation(a.gpuTemp, b.gpuTemp);
    TotalOfPermutation(a.netRx, b.netRx);
    TotalOfPermutation(a.netTx, b.netTx);
    PercentileOfPermutation(a.cpu, b.cpu, 95.0);
    SortByTimeOfPermutation(a.points, b.points);
  }

  /** Samples may arrive in any order, as long as no two memory samples have one time. */
  lemma AggregateOfPermutation(a: seq<Sample>, b: seq<Sample>, runtime: real, fallbackMemory: Option<real>, cpus: int)
    requires multiset(a) == multiset(b) && DistinctTimes(multiset(Points(a)))
    ensures Aggregate(a, runtime, fallbackMemory, cpus) == Aggregate(b, runtime, fallbackMemory, cpus)
  {
    hide Summarise, Peak, DistinctTimes, Values, Points, SameReadings;
    SameSize(a, b);
    SeriesOfPermutation(a, b, cpus);
    SummariseOfPermutation(SeriesOf(a, cpus), SeriesOf(b, cpus), |a|, runtime, PeakMb(Values(a, Mem, cpus), fallbackMemory));
    ValuesOfPermutation(a, b, Mem, cpus);
    PeakOfPermutation(if fallbackMemory.Some? then fallbackMemory.value else 0.0, Values(a, Mem, cpus), Values(b, Mem, cpus));
  }

  // ----- the figures written out -----

  /** `f` is the average of the values, if there are any. */
  ghost predicate IsAverage(f: Option<real>, values: seq<real>) {
    if values == [] then f.None? else f.Some? && f.value * |values| as real == Sum(values)
  }

  /** `f` is the largest of the values, if there are any. */
  ghost predicate IsPeak(f: Option<real>, values: seq<real>) {
    if values == [] then f.None? else f.Some? && f.value in values && forall v :: v in values ==> v <= f.value
  }

  predicate IsTruncated(n: int, x: real) {
    if x >= 0.0 then n as real <= x < (n + 1) as real else (n - 1) as real < x <= n as real
  }

  /** `f` is the largest of the values, cut towards zero, if there are any. */
  ghost predicate IsTotal(f: Option<int>, values: seq<real>) {
    if values == [] then f.None?
    else
      f.Some? && exists m :: IsPeak(Some(m), values) && IsTruncated(f.value, m)
  }

  /** The sum of readings, which averages divide: what two lists sum to is the sum of the sums. */
  lemma {:induction false} SumOfLists(a: seq<real>, v: real, b: seq<real>)
    ensures Sum([]) == 0.0 && Sum([v]) == v && Sum(a + b) == Sum(a) + Sum(b)
    decreases |a|
  {
    assert [v][1..] == [];
    if a == [] {
      assert a + b == b;
    } else {
      SumOfLists(a[1..], v, b);
      assert (a + b)[1..] == a[1..] + b;
    }
  }

  lemma AvgPeakIs(values: seq<real>)
    ensures IsAverage(AvgPeak(values).0, values) && IsPeak(AvgPeak(values).1, values)
  {
    hide Sum;
    if values != [] {
      var n := |values| as real;
      assert Sum(values) / n * n == Sum(values);
    }
  }

  lemma TotalIs(values: seq<real>)
    ensures IsTotal(Total(values), values)
  {
    if values != [] {
      assert IsPeak(Some(Largest(values)), values);
    }
  }

  /** The readings of a gauge are those of the samples, in their order. */
  lemma ReadingsInOrder(a: seq<Sample>, x: Sample, b: seq<Sample>, gauge: Gauge, cpus: int)
    ensures Values([], gauge, cpus) == [] && Values(a + b, gauge, cpus) == Values(a, gauge, cpus) + Values(b, gauge, cpus)
    ensures Points([]) == [] && Points(a + b) == Points(a) + Points(b)
    ensures var reading :=
        match gauge
        case Cpu => if x.cpu.None? then None else Some(NormalizeCpu(x.cpu.value, cpus))
        case Mem => x.mem
        case GpuUtil => x.gpuUtil
        case GpuMem => x.gpuMem
        case NetRx => x.netRx
        case NetTx => x.netTx
        case GpuPower => x.gpuPower
        case GpuTemp => x.gpuTemp;
      Values([x], gauge, cpus) == if reading.Some? then [reading.value] else []
    ensures Points([x]) == if x.mem.Some? && x.time.Some? then [Point(x.time.value, x.mem.value)] else []
  {
    hide NormalizeCpu;
    CollectAppend((y: Sample) => Reading(y, gauge, cpus), a, b);
    CollectAppend(PointOf, a, b);
    assert [x][..0] == [];
  }

  /** Each figure of the aggregate belongs to one gauge; without memory readings a positive fallback stands in for them. */
  lemma FiguresOfGauges(samples: seq<Sample>, runtime: real, fallbackMemory: Option<real>, cpus: int)
    ensures var u := Aggregate(samples, runtime, fallbackMemory, cpus); var of := (gauge: Gauge) => Values(samples, gauge, cpus);
      && u.sampleCount == |samples|
      && IsAverage(u.cpuAvg, of(Cpu)) && IsPeak(u.cpuPeak, of(Cpu)) && u.cpuP95 == Percentile(of(Cpu), 95.0)
      && IsAverage(u.gpuUtilAvg, of(GpuUtil)) && IsPeak(u.gpuUtilPeak, of(GpuUtil))
      && IsAverage(u.gpuMemAvg, of(GpuMem)) && IsPeak(u.gpuMemPeak, of(GpuMem))
      && IsAverage(u.gpuPowerAvg, of(GpuPower)) && IsPeak(u.gpuPowerPeak, of(GpuPower))
      && IsPeak(u.gpuTempPeak, of(GpuTemp))
      && IsTotal(u.networkRx, of(NetRx)) && IsTotal(u.networkTx, of(NetTx))
  {
    hide Values, Percentile, MemorySeconds, PeakMb, IsAverage, IsPeak, IsTotal, Total, AvgPeak;
    var all := SeriesOf(samples, cpus);
    AvgPeakIs(all.cpu);
    AvgPeakIs(all.gpuUtil);
    AvgPeakIs(all.gpuMem);
    AvgPeakIs(all.gpuPower);
    AvgPeakIs(all.gpuTemp);
    TotalIs(all.netRx);
    TotalIs(all.netTx);
  }

  /** The memory figures: `start` is the memory reported beside the samples, or 0. */
  lemma MemoryFigures(samples: seq<Sample>, runtime: real, fallbackMemory: Option<real>, cpus: int, start: real)
    requires start == if fallbackMemory.Some? then fallbackMemory.value else 0.0
    ensures var u := Aggregate(samples, runtime, fallbackMemory, cpus); var mem := Values(samples, Mem, cpus);
      && (mem != [] ==> IsAverage(u.memoryAvg, mem) && IsPeak(u.memoryPeak, mem))
      && (mem == [] ==> u.memoryAvg == u.memoryPeak == if start > 0.0 then Some(start) else None)
      && exists peak :: IsPeak(Some(peak), [start] + mem) && u.memoryPeakKb == if peak > 0.0 then (peak * 1024.0).Floor else 0
  {
    hide Values, Percentile, MemorySeconds, Sum, Total, AvgPeak, Points;
    var mem := Values(samples, Mem, cpus);
    AvgPeakIs(mem);
    NoReadings();
    assert IsPeak(Some(PeakMb(mem, fallbackMemory)), [start] + mem);
  }

  lemma NoReadings()
    ensures AvgPeak([]) == (None, None)
  {
  }

  /** A single timed sample counts for the whole runtime. */
  lemma MemoryOfOneSample(samples: seq<Sample>, runtime: real, fallbackMemory: Option<real>, cpus: int)
    requires |Points(samples)| == 1
    ensures Aggregate(samples, runtime, fallbackMemory, cpus).memoryMbSeconds
            == Points(samples)[0].v * (if runtime > 0.0 then runtime else 0.0)
  {
    hide Values, Percentile, Total, AvgPeak, Points, PeakMb;
    var points := Points(samples);
    assert points == [points[0]] && SortByTime(points) == points;
  }

  /** Without timed samples the largest of the memory readings and the memory reported beside them counts, if it is positive. */
  lemma MemoryOfPeak(samples: seq<Sample>, runtime: real, fallbackMemory: Option<real>, cpus: int, start: real)
    requires start == if fallbackMemory.Some? then fallbackMemory.value else 0.0
    requires Points(samples) == []
    ensures var total := Aggregate(samples, runtime, fallbackMemory, cpus).memoryMbSeconds;
      exists peak :: IsPeak(Some(peak), [start] + Values(samples, Mem, cpus))
                     && total == (if peak > 0.0 then peak else 0.0) * (if runtime > 0.0 then runtime else 0.0)
  {
    hide Values, Percentile, Total, AvgPeak, Points, Sum, Truncate;
    var peak := PeakMb(Values(samples, Mem, cpus), fallbackMemory);
    assert SortByTime([]) == [];
    assert IsPeak(Some(peak), [start] + Values(samples, Mem, cpus));
    hide IsPeak, PeakMb, Peak;
  }

  /** The area between two points is their mean value times the time between them, and areas that meet in a point add up. */
  lemma {:induction false} AreaAdds(a: seq<Point>, p: Point, q: Point, b: seq<Point>)
    ensures Area([p, q]) == (p.v + q.v) / 2.0 * (if q.t > p.t then q.t - p.t else 0.0)
    ensures Area(a + [p] + b) == Area(a + [p]) + Area([p] + b)
    decreases |b|
  {
    assert [p, q][..1] == [p] && Area([p]) == 0.0;
    if b == [] {
      assert a + [p] + b == a + [p] && [p] + b == [p];
    } else {
      hide Trapezoid;
      var n := |b| - 1;
      AreaAdds(a, p, q, b[..n]);
      AreaStep(a, p, b);
      AreaStep([], p, b);
      assert [] + [p] + b == [p] + b && [] + [p] + b[..n] == [p] + b[..n];
    }
  }

  lemma AreaStep(a: seq<Point>, p: Point, b: seq<Point>)
    requires b != []
    ensures var n := |b| - 1;
      Area(a + [p] + b) == Area(a + [p] + b[..n]) + Trapezoid(([p] + b)[n], b[n])
  {
    hide Trapezoid;
    var all, n := a + [p] + b, |b| - 1;
    assert all[..|all| - 1] == a + [p] + b[..n];
    assert all[|all| - 1] == b[n] && all[|all| - 2] == ([p] + b)[n];
  }

  // ----- bounds -----

  lemma TimesSum(a: real, x: real, y: real)
    ensures Times(a, x) + Times(a, y) == Times(a, x + y)
  {
  }

  lemma TimesBounds(lo: real, v: real, hi: real, x: real)
    requires lo <= v <= hi && x >= 0.0
    ensures Times(lo, x) <= Times(v, x) <= Times(hi, x)
  {
    assert (v - lo) * x >= 0.0 && (hi - v) * x >= 0.0;
    assert (v - lo) * x == v * x - lo * x && (hi - v) * x == hi * x - v * x;
  }

  ghost predicate Within(points: seq<Point>, lo: real, hi: real) {
    forall p :: p in points ==> lo <= p.v <= hi
  }

  lemma TrapezoidBounds(a: Point, b: Point, lo: real, hi: real)
    requires a.t <= b.t && lo <= a.v <= hi && lo <= b.v <= hi
    ensures Times(lo, b.t - a.t) <= Trapezoid(a, b) <= Times(hi, b.t - a.t)
  {
    hide Times;
    TimesBounds(lo, (a.v + b.v) / 2.0, hi, b.t - a.t);
  }

  lemma LastTwo(points: seq<Point>, lo: real, hi: real)
    requires |points| >= 2 && InOrder(points) && Within(points, lo, hi)
    ensures var n := |points| - 1; var a, b := points[n - 1], points[n];
      && InOrder(points[..n]) && Within(points[..n], lo, hi)
      && a.t <= b.t && lo <= a.v <= hi && lo <= b.v <= hi
  {
    var n := |points| - 1;
    assert points[n - 1] in points && points[n] in points;
    forall p | p in points[..n] ensures p in points {}
  }

  lemma SpanBounds(lo: real, hi: real, start: real, t: real, u: real, area: real, step: real)
    requires Times(lo, t - start) <= area <= Times(hi, t - start)
    requires Times(lo, u - t) <= step <= Times(hi, u - t)
    ensures Times(lo, u - start) <= area + step <= Times(hi, u - start)
  {
    hide Times;
    TimesSum(lo, t - start, u - t);
    TimesSum(hi, t - start, u - t);
    assert (t - start) + (u - t) == u - start;
  }

  lemma {:induction false} AreaBounds(points: seq<Point>, lo: real, hi: real)
    requires points != [] && InOrder(points) && Within(points, lo, hi)
    ensures Times(lo, points[|points| - 1].t - points[0].t) <= Area(points)
            <= Times(hi, points[|points| - 1].t - points[0].t)
    decreases |points|
  {
    hide Times, Trapezoid, InOrder, Within;
    var n := |points| - 1;
    if n == 0 {
      TimesNone(lo);
      TimesNone(hi);
    } else {
      var a, b := points[n - 1], points[n];
      LastTwo(points, lo, hi);
      AreaBounds(points[..n], lo, hi);
      TrapezoidBounds(a, b, lo, hi);
      SpanBounds(lo, hi, points[0].t, a.t, b.t, Area(points[..n]), Trapezoid(a, b));
    }
  }

  lemma TimesNone(a: real)
    ensures Times(a, 0.0) == 0.0
  {
  }

  /** What the last sample stands for: half of the average gap between samples. */
  function Covered(points: seq<Point>, runtime: real): real
    requires |points| >= 2
  {
    points[|points| - 1].t - points[0].t + Tail(|points|, runtime)
  }

  /**
   With at least two timed memory samples the integral lies between the smallest and the
   largest value times the covered time, so it is exact for constant memory.
  */
  lemma MemoryBounds(samples: seq<Sample>, runtime: real, fallbackMemory: Option<real>, cpus: int, lo: real, hi: real)
    requires |Points(samples)| >= 2 && Within(Points(samples), lo, hi)
    ensures var time := Covered(SortByTime(Points(samples)), runtime);
      Times(lo, time) <= Aggregate(samples, runtime, fallbackMemory, cpus).memoryMbSeconds <= Times(hi, time)
  {
    hide Times, Points, SortByTime, AvgPeak, Percentile, Values, PeakMb, Area, Total;
    var points := SortByTime(Points(samples));
    SortInOrder(Points(samples));
    SortWithin(Points(samples), lo, hi);
    IntegralBounds(points, runtime, PeakMb(Values(samples, Mem, cpus), fallbackMemory), lo, hi);
  }

  lemma SortWithin(points: seq<Point>, lo: real, hi: real)
    requires Within(points, lo, hi)
    ensures Within(SortByTime(points), lo, hi)
  {
    hide SortByTime;
    forall p | p in SortByTime(points) ensures lo <= p.v <= hi {
      SameElements(points, SortByTime(points), p);
    }
  }

  lemma IntegralBounds(points: seq<Point>, runtime: real, peak: real, lo: real, hi: real)
    requires |points| >= 2 && InOrder(points) && Within(points, lo, hi)
    ensures Times(lo, Covered(points, runtime)) <= MemorySeconds(points, runtime, peak) <= Times(hi, Covered(points, runtime))
  {
    hide Times, Area, Tail;
    var n := |points|;
    var span, tail := points[n - 1].t - points[0].t, Tail(n, runtime);
    AreaBounds(points, lo, hi);
    assert points[n - 1] in points;
    TailNotNegative(n, runtime);
    TimesBounds(lo, points[n - 1].v, hi, tail);
    TimesSum(lo, span, tail);
    TimesSum(hi, span, tail);
  }

  lemma TailNotNegative(n: nat, runtime: real)
    requires n > 0
    ensures Tail(n, runtime) >= 0.0
    ensures runtime >= 0.0 ==> Tail(n, runtime) == runtime / (2.0 * n as real)
    ensures runtime < 0.0 ==> Tail(n, runtime) == 0.0
  {
    var m := n as real;
    var q, h := runtime / m, runtime / (2.0 * m);
    assert q * m == runtime && h * (2.0 * m) == runtime;
    assert (q * 0.5 - h) * (2.0 * m) == 0.0;
  }

  function Line(a: real, b: real, t: real): real {
    a + b * t
  }

  /** Memory that grows or shrinks linearly with time. */
  ghost predicate Ramp(points: seq<Point>, a: real, b: real) {
    forall p :: p in points ==> p.v == Line(a, b, p.t)
  }

  function Integral(a: real, b: real, t: real): real {
    a * t + b * t * t / 2.0
  }

  lemma RampTrapezoid(a: real, b: real, t: real, u: real)
    ensures (((a + b * t) + (a + b * u)) / 2.0) * (u - t) == Integral(a, b, u) - Integral(a, b, t)
  {
    assert (a + b * t + (a + b * u)) / 2.0 == a + (b * t + b * u) / 2.0;
    assert (b * t + b * u) * (u - t) == b * u * u - b * t * t;
  }

  lemma RampStep(p: Point, q: Point, a: real, b: real)
    requires p.v == Line(a, b, p.t) && q.v == Line(a, b, q.t) && p.t <= q.t
    ensures Trapezoid(p, q) == Integral(a, b, q.t) - Integral(a, b, p.t)
  {
    hide Integral;
    RampTrapezoid(a, b, p.t, q.t);
  }

  lemma {:induction false} RampArea(points: seq<Point>, a: real, b: real)
    requires points != [] && InOrder(points) && Ramp(points, a, b)
    ensures Area(points) == Integral(a, b, points[|points| - 1].t) - Integral(a, b, points[0].t)
    decreases |points|
  {
    hide Integral, Line, Trapezoid;
    var n := |points| - 1;
    if n > 0 {
      var p, q := points[n - 1], points[n];
      assert p in points && q in points && p.t <= q.t;
      forall x | x in points[..n] ensures x.v == Line(a, b, x.t) {
        assert x in points;
      }
      RampArea(points[..n], a, b);
      RampStep(p, q, a, b);
    }
  }

  /** For memory that varies linearly the integral between the first and the last sample is exact. */
  lemma MemoryOfRamp(samples: seq<Sample>, runtime: real, fallbackMemory: Option<real>, cpus: int, a: real, b: real)
    requires |Points(samples)| >= 2 && Ramp(Points(samples), a, b)
    ensures var points := SortByTime(Points(samples)); var first, last := points[0], points[|points| - 1];
      Aggregate(samples, runtime, fallbackMemory, cpus).memoryMbSeconds
      == Integral(a, b, last.t) - Integral(a, b, first.t) + Times(last.v, Tail(|points|, runtime))
  {
    hide Times, Points, SortByTime, AvgPeak, Percentile, Values, PeakMb, Area, Integral, Tail, Line, Total;
    var points := SortByTime(Points(samples));
    SortInOrder(Points(samples));
    forall p | p in points ensures p.v == Line(a, b, p.t) {
      SameElements(Points(samples), points, p);
    }
    RampArea(points, a, b);
  }

  lemma {:induction false} CollectedFrom<T>(f: Sample -> Option<T>, samples: seq<Sample>, v: T)
    requires v in Collect(f, samples)
    ensures exists x :: x in samples && f(x) == Some(v)
    decreases |samples|
  {
    var n := |samples| - 1;
    if v in Collect(f, samples[..n]) {
      CollectedFrom(f, samples[..n], v);
    } else {
      assert samples[n] in samples && f(samples[n]) == Some(v);
    }
  }

  lemma CpuInRange(samples: seq<Sample>, cpus: int)
    ensures forall v :: v in Values(samples, Cpu, cpus) ==> 0.0 <= v <= 100.0
  {
    hide NormalizeCpu, Collect;
    forall v | v in Values(samples, Cpu, cpus) ensures 0.0 <= v <= 100.0 {
      CollectedFrom((x: Sample) => Reading(x, Cpu, cpus), samples, v);
    }
  }

  /** CPU figures are ordered and stay within 0 and 100 percent. */
  lemma CpuBounds(samples: seq<Sample>, runtime: real, fallbackMemory: Option<real>, cpus: int)
    ensures var u := Aggregate(samples, runtime, fallbackMemory, cpus);
      && (u.cpuAvg.None? <==> u.cpuPeak.None?) && (u.cpuP95.None? <==> u.cpuPeak.None?)
      && (u.cpuPeak.Some? ==>
           && 0.0 <= u.cpuAvg.value <= u.cpuPeak.value <= 100.0
           && 0.0 <= u.cpuP95.value <= u.cpuPeak.value)
  {
    hide Percentile, Sum, Points, MemorySeconds, PeakMb, Total;
    var cpu := Values(samples, Cpu, cpus);
    CpuInRange(samples, cpus);
    hide Values, NormalizeCpu;
    PercentileExists(cpu, 95.0);
    if cpu != [] {
      AverageBounds(cpu, 0.0, Largest(cpu));
      PercentileBounded(cpu, 95.0);
    }
  }

  lemma PercentileExists(values: seq<real>, pct: real)
    ensures Percentile(values, pct).None? <==> values == []
  {
  }
}
