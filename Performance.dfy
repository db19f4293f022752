/** The `PerformanceMonitor` of src/lib/performance.ts: named marks, bounded
    metric history and summary statistics. The high-resolution clock and
    the wall clock are parameters; console warnings and the Web Vitals
    observers are not modelled. */
module Performance {
  datatype Metric = Metric(name: string, duration: real, timestamp: int)

  /** `MAX_METRICS`. */
  const MaxMetrics := 1000

  datatype Stats = Stats(count: nat, min: real, max: real, avg: real, total: real)

  /** The metrics with the given name, in order. */
  function Named(ms: seq<Metric>, name: string): (r: seq<Metric>)
    ensures |r| <= |ms|
    ensures forall i :: 0 <= i < |r| ==> r[i].name == name
    ensures forall m :: m in ms && m.name == name ==> m in r
  {
    if ms == [] then []
    else if ms[|ms| - 1].name == name then Named(ms[..|ms| - 1], name) + [ms[|ms| - 1]]
    else Named(ms[..|ms| - 1], name)
  }

  /** The metrics whose name differs from the given one, in order. */
  function Unnamed(ms: seq<Metric>, name: string): (r: seq<Metric>)
    ensures |r| <= |ms|
    ensures forall i :: 0 <= i < |r| ==> r[i].name != name
    ensures forall m :: m in ms && m.name != name ==> m in r
  {
    if ms == [] then []
    else if ms[|ms| - 1].name != name then Unnamed(ms[..|ms| - 1], name) + [ms[|ms| - 1]]
    else Unnamed(ms[..|ms| - 1], name)
  }

  /** Splitting by name loses nothing. */
  lemma {:induction false} Named_Unnamed(ms: seq<Metric>, name: string)
    ensures |Named(ms, name)| + |Unnamed(ms, name)| == |ms|
  {
    if ms != [] {
      Named_Unnamed(ms[..|ms| - 1], name);
    }
  }

  /** `getMetrics(name?)`: an absent or empty name selects every metric. */
  function Select(ms: seq<Metric>, name: Option<string>): seq<Metric> {
    if name.Some? && name.value != "" then Named(ms, name.value) else ms
  }

  datatype Option<T> = None | Some(value: T)

  function Total(ms: seq<Metric>): real {
    if ms == [] then 0.0 else Total(ms[..|ms| - 1]) + ms[|ms| - 1].duration
  }

  function Shortest(ms: seq<Metric>): (r: real)
    requires ms != []
    ensures forall i :: 0 <= i < |ms| ==> r <= ms[i].duration
    ensures exists i :: 0 <= i < |ms| && r == ms[i].duration
  {
    if |ms| == 1 then ms[0].duration
    else
      var r := Shortest(ms[..|ms| - 1]);
      var d := ms[|ms| - 1].duration;
      if d < r then d else r
  }

  function Longest(ms: seq<Metric>): (r: real)
    requires ms != []
    ensures forall i :: 0 <= i < |ms| ==> ms[i].duration <= r
    ensures exists i :: 0 <= i < |ms| && r == ms[i].duration
  {
    if |ms| == 1 then ms[0].duration
    else
      var r := Longest(ms[..|ms| - 1]);
      var d := ms[|ms| - 1].duration;
      if d > r then d else r
  }

  /** The total lies between the count times the shortest and the count
      times the longest duration. */
  lemma {:induction false} Total_Bounds(ms: seq<Metric>, lo: real, hi: real)
    requires forall i :: 0 <= i < |ms| ==> lo <= ms[i].duration <= hi
    ensures (|ms| as real) * lo <= Total(ms) <= (|ms| as real) * hi
  {
    if ms != [] {
      Total_Bounds(ms[..|ms| - 1], lo, hi);
    }
  }

  /** The mean of `n` values adding up to `total`. */
  function Mean(total: real, n: nat): (a: real)
    requires n > 0
    ensures a * (n as real) == total
  {
    total / (n as real)
  }

  /** A total between `n` times two bounds has its mean between them. */
  lemma Mean_Bounds(total: real, n: nat, lo: real, hi: real)
    requires n > 0 && (n as real) * lo <= total <= (n as real) * hi
    ensures lo <= Mean(total, n) <= hi
  {
    var a := Mean(total, n);
    assert a < lo ==> a * (n as real) < lo * (n as real);
    assert a > hi ==> a * (n as real) > hi * (n as real);
  }

  /** The statistics `getStats` reports for the selected metrics. */
  function StatsOf(ms: seq<Metric>): (s: Stats)
    ensures s.count == |ms| && s.total == Total(ms)
    ensures ms == [] ==> s == Stats(0, 0.0, 0.0, 0.0, 0.0)
    ensures ms != [] ==> s.avg * (|ms| as real) == s.total
  {
    if ms == [] then Stats(0, 0.0, 0.0, 0.0, 0.0)
    else Stats(|ms|, Shortest(ms), Longest(ms), Mean(Total(ms), |ms|), Total(ms))
  }

  /** The average lies between the minimum and the maximum. */
  lemma StatsOf_Between(ms: seq<Metric>)
    requires ms != []
    ensures StatsOf(ms).min <= StatsOf(ms).avg <= StatsOf(ms).max
  {
    var lo, hi, t := Shortest(ms), Longest(ms), Total(ms);
    Total_Bounds(ms, lo, hi);
    Mean_Bounds(t, |ms|, lo, hi);
    var s := StatsOf(ms);
    assert s.min == lo && s.max == hi && s.avg == Mean(t, |ms|);
  }

  /** `getAverage(name)`: zero for no metrics, else the mean duration. */
  function Average(ms: seq<Metric>, name: string): (r: real)
    ensures Named(ms, name) == [] ==> r == 0.0
    ensures Named(ms, name) != [] ==> r == StatsOf(Named(ms, name)).avg
  {
    var sel := Named(ms, name);
    if |sel| == 0 then 0.0 else Mean(Total(sel), |sel|)
  }

  /** The history after one more metric: the oldest is dropped once there
      are more than `MaxMetrics`. */
  function Pushed(ms: seq<Metric>, m: Metric): (r: seq<Metric>)
    ensures |ms| <= MaxMetrics ==> |r| <= MaxMetrics
    ensures r != [] && r[|r| - 1] == m
    ensures |ms| < MaxMetrics ==> r == ms + [m]
  {
    var pushed := ms + [m];
    if |pushed| > MaxMetrics then pushed[1..] else pushed
  }

  class PerformanceMonitor {
    var metrics: seq<Metric>
    var marks: map<string, real>

    predicate Valid()
      reads this
    {
      |metrics| <= MaxMetrics
    }

    constructor ()
      ensures Valid() && metrics == [] && marks == map[]
    {
      metrics := [];
      marks := map[];
    }

    /** `mark(name)` at clock reading `clock`. */
    method Mark(name: string, clock: real)
      modifies this
      ensures marks == old(marks)[name := clock] && metrics == old(metrics)
    {
      marks := marks[name := clock];
    }

    /** `measure(name, startMark)` at clock reading `clock` and wall time
        `wall`: nothing happens when the mark is missing or reads zero. */
    method Measure(name: string, startMark: string, clock: real, wall: int)
      requires Valid()
      modifies this
      ensures Valid() && marks == old(marks)
      ensures startMark !in old(marks) || old(marks)[startMark] == 0.0 ==> metrics == old(metrics)
      ensures startMark in old(marks) && old(marks)[startMark] != 0.0 ==>
        metrics == Pushed(old(metrics), Metric(name, clock - old(marks)[startMark], wall))
    {
      if startMark !in marks || marks[startMark] == 0.0 {
        return;
      }
      var duration := clock - marks[startMark];
      metrics := metrics + [Metric(name, duration, wall)];
      if |metrics| > MaxMetrics {
        metrics := metrics[1..];
      }
    }

    /** `time(name, fn)`: marks `name_start` at `start`, runs the function
        and measures at `finish`. */
    method Time(name: string, start: real, finish: real, wall: int)
      requires Valid()
      modifies this
      ensures Valid() && marks == old(marks)[name + "_start" := start]
      ensures start == 0.0 ==> metrics == old(metrics)
      ensures start != 0.0 ==> metrics == Pushed(old(metrics), Metric(name, finish - start, wall))
    {
      Mark(name + "_start", start);
      Measure(name, name + "_start", finish, wall);
    }

    /** `getMetrics(name?)`. */
    method GetMetrics(name: Option<string>) returns (r: seq<Metric>)
      ensures r == Select(metrics, name)
    {
      if name.Some? && name.value != "" {
        r := Named(metrics, name.value);
      } else {
        r := metrics;
      }
    }

    /** `getStats(name?)`. */
    method GetStats(name: Option<string>) returns (s: Stats)
      ensures s == StatsOf(Select(metrics, name))
    {
      var sel := GetMetrics(name);
      s := StatsOf(sel);
    }

    /** `clear()`. */
    method Clear()
      modifies this
      ensures Valid() && metrics == [] && marks == map[]
    {
      metrics := [];
      marks := map[];
    }

    /** `clearMetric(name)`. */
    method ClearMetric(name: string)
      requires Valid()
      modifies this
      ensures Valid() && marks == old(marks) && metrics == Unnamed(old(metrics), name)
    {
      metrics := Unnamed(metrics, name);
    }
  }

  /** After `clearMetric(name)` no metric of that name is left, and every
      other metric is kept. */
  lemma ClearMetric_Effect(ms: seq<Metric>, name: string)
    ensures Named(Unnamed(ms, name), name) == []
    ensures Named(ms, name) == [] ==> Unnamed(ms, name) == ms
  {
    var u := Unnamed(ms, name);
    if Named(u, name) != [] {
      var m := Named(u, name)[0];
      assert m in Named(u, name);
      Named_In(u, name, m);
      assert false;
    }
    if Named(ms, name) == [] {
      Named_Unnamed(ms, name);
      Unnamed_All(ms, name);
    }
  }

  lemma {:induction false} Named_In(ms: seq<Metric>, name: string, m: Metric)
    ensures m in Named(ms, name) ==> m in ms && m.name == name
  {
    if ms != [] {
      Named_In(ms[..|ms| - 1], name, m);
    }
  }

  lemma {:induction false} Unnamed_All(ms: seq<Metric>, name: string)
    ensures |Unnamed(ms, name)| == |ms| ==> Unnamed(ms, name) == ms
  {
    if ms != [] {
      Unnamed_All(ms[..|ms| - 1], name);
      if |Unnamed(ms, name)| == |ms| {
        assert ms == ms[..|ms| - 1] + [ms[|ms| - 1]];
      }
    }
  }
}
