/** What the exporters read from a benchmark result. */
module Benchmark {

  /** One benchmarked command with the summary statistics of its wall-clock
      times: mean, minimum and maximum in seconds, and the sample variance (the
      square of the standard deviation) in square seconds. Carrying the variance
      keeps every statistic an exact rational for rational run times. The
      statistics are computed from the individual runs before export; the
      exporters never see the runs themselves. */
  datatype BenchmarkResult = BenchmarkResult(
    command: string,
    mean: real,
    variance: real,
    min: real,
    max: real)

  /** Time quantities are never negative. */
  predicate Valid(r: BenchmarkResult)
  {
    0.0 <= r.mean && 0.0 <= r.variance && 0.0 <= r.min && 0.0 <= r.max
  }

  predicate AllValid(rs: seq<BenchmarkResult>)
  {
    forall i :: 0 <= i < |rs| ==> Valid(rs[i])
  }

  /** The sum of the run times. */
  function Sum(times: seq<real>): real
  {
    if |times| == 0 then 0.0 else Sum(times[..|times| - 1]) + times[|times| - 1]
  }

  /** The sum of the squared distances of the run times from `m`. */
  function SquaredDeviations(times: seq<real>, m: real): (v: real)
    ensures 0.0 <= v
  {
    if |times| == 0 then 0.0
    else
      var d := times[|times| - 1] - m;
      SquaredDeviations(times[..|times| - 1], m) + d * d
  }

  /** `r` holds the statistics of at least two wall-clock run times: their mean,
      their sample variance (with `n - 1` in the denominator), and the smallest
      and the largest run time. */
  ghost predicate Summarizes(r: BenchmarkResult, times: seq<real>)
  {
    && |times| >= 2
    && r.mean * |times| as real == Sum(times)
    && r.variance * (|times| - 1) as real == SquaredDeviations(times, r.mean)
    && r.min in times && r.max in times
    && forall i :: 0 <= i < |times| ==> r.min <= times[i] <= r.max
  }
}
