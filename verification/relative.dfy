/** Relative speed: each result's mean against the fastest result's mean. */
module RelativeSpeed {
  import opened Wrappers
  import opened Benchmark

  /** A result together with its speed relative to the fastest one. `ratioVariance`
      is the square of the uncertainty of `ratio`, propagated from both standard
      deviations: `(ratio * sqrt((sd/mean)^2 + (sd_fastest/mean_fastest)^2))^2`. */
  datatype Entry = Entry(result: BenchmarkResult, ratio: real, ratioVariance: real, isFastest: bool)

  /** What every computed entry satisfies: a valid result, a ratio of at least one
      (nothing is faster than the fastest) and a non-negative variance. */
  predicate Sound(e: Entry)
  {
    Valid(e.result) && 1.0 <= e.ratio && 0.0 <= e.ratioVariance
  }

  /** Index `b` holds the first smallest mean of `rs`. */
  ghost predicate FirstMinimum(rs: seq<BenchmarkResult>, b: int)
  {
    && 0 <= b < |rs|
    && (forall j :: 0 <= j < |rs| ==> rs[b].mean <= rs[j].mean)
    && (forall j :: 0 <= j < b ==> rs[b].mean < rs[j].mean)
  }

  /** The baseline: the result with the smallest mean, the earliest one on a tie. */
  function Fastest(rs: seq<BenchmarkResult>): (b: nat)
    requires |rs| > 0
    ensures FirstMinimum(rs, b)
  {
    if |rs| == 1 then 0
    else
      var b := Fastest(rs[..|rs| - 1]);
      assert forall j :: 0 <= j < |rs| - 1 ==> rs[..|rs| - 1][j] == rs[j];
      if rs[|rs| - 1].mean < rs[b].mean then |rs| - 1 else b
  }

  /** Only one index holds the first smallest mean. */
  lemma FirstMinimumUnique(rs: seq<BenchmarkResult>, b: int, c: int)
    requires FirstMinimum(rs, b) && FirstMinimum(rs, c)
    ensures b == c
  {
    assert rs[b].mean == rs[c].mean;
  }

  /** The relative speed of `r` against the baseline `fastest`, whose mean is positive. */
  function EntryFor(r: BenchmarkResult, fastest: BenchmarkResult, isFastest: bool): (e: Entry)
    requires Valid(r) && Valid(fastest)
    requires 0.0 < fastest.mean <= r.mean
    ensures e.result == r && e.isFastest == isFastest
    ensures e.ratio * fastest.mean == r.mean
    ensures 1.0 <= e.ratio
    ensures 0.0 <= e.ratioVariance
  {
    var ratio := r.mean / fastest.mean;
    var own := SquaredVariation(r);
    var base := SquaredVariation(fastest);
    assert 0.0 <= ratio * ratio;
    Entry(r, ratio, ratio * ratio * (own + base), isFastest)
  }

  /** The squared coefficient of variation, `(sd/mean)^2`, of a result with a positive mean. */
  function SquaredVariation(r: BenchmarkResult): (v: real)
    requires Valid(r) && 0.0 < r.mean
    ensures 0.0 <= v
    ensures v * r.mean * r.mean == r.variance
  {
    var perMean := r.variance / r.mean;
    PositiveQuotient(r.variance, r.mean);
    PositiveQuotient(perMean, r.mean);
    perMean / r.mean
  }

  lemma PositiveQuotient(v: real, s: real)
    requires 0.0 <= v && 0.0 < s
    ensures 0.0 <= v / s && v / s * s == v
  {
  }

  /** `es` gives, in input order, each result's speed relative to the result at `b`. */
  ghost predicate RelativeTo(rs: seq<BenchmarkResult>, es: seq<Entry>, b: int)
  {
    && 0 <= b < |rs|
    && |es| == |rs|
    && forall i :: 0 <= i < |rs| ==>
         && es[i].result == rs[i]
         && (es[i].isFastest <==> i == b)
         && es[i].ratio * rs[b].mean == rs[i].mean
         && Sound(es[i])
  }

  /** The relative speeds of all results in input order, or nothing when there are no
      results or the fastest mean is zero (no ratio is defined then). */
  function Compute(rs: seq<BenchmarkResult>): (es: Option<seq<Entry>>)
    requires AllValid(rs)
    ensures es.None? <==> |rs| == 0 || rs[Fastest(rs)].mean == 0.0
    ensures es.Some? ==> |rs| > 0 && RelativeTo(rs, es.value, Fastest(rs))
  {
    if |rs| == 0 then None
    else
      var b := Fastest(rs);
      if rs[b].mean == 0.0 then None
      else Some(Entries(rs, b))
  }

  /** Every result's entry against the baseline at `b`. */
  function Entries(rs: seq<BenchmarkResult>, b: int): (es: seq<Entry>)
    requires AllValid(rs)
    requires FirstMinimum(rs, b) && 0.0 < rs[b].mean
    ensures RelativeTo(rs, es, b)
  {
    seq(|rs|, i requires 0 <= i < |rs| => EntryFor(rs[i], rs[b], i == b))
  }

  /** Exactly one entry is the fastest, and its ratio is exactly one. */
  lemma {:induction false} OneFastest(rs: seq<BenchmarkResult>)
    requires AllValid(rs)
    requires Compute(rs).Some?
    ensures var es := Compute(rs).value;
            && es[Fastest(rs)].isFastest
            && es[Fastest(rs)].ratio == 1.0
            && forall i :: 0 <= i < |es| && es[i].isFastest ==> i == Fastest(rs)
  {
    var b := Fastest(rs);
    var es := Compute(rs).value;
    assert es[b].ratio * rs[b].mean == rs[b].mean;
  }

  /** The fastest mean is zero exactly when some mean is zero, since no mean is negative:
      a zero anywhere leaves every ratio undefined. */
  lemma {:induction false} ZeroFastestIffSomeZero(rs: seq<BenchmarkResult>)
    requires AllValid(rs) && |rs| > 0
    ensures rs[Fastest(rs)].mean == 0.0 <==> exists i :: 0 <= i < |rs| && rs[i].mean == 0.0
  {
    var b := Fastest(rs);
    if exists i :: 0 <= i < |rs| && rs[i].mean == 0.0 {
      var i :| 0 <= i < |rs| && rs[i].mean == 0.0;
      assert rs[b].mean <= rs[i].mean;
      assert Valid(rs[b]);
    }
  }
}
