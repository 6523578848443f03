/** The tables of the exporters' snapshot tests, derived from the model. Each test
    feeds two benchmark results; the results here carry the statistics of the
    test's three run times (mean, sample variance, minimum, maximum). Every cell
    is evaluated in a lemma of its own so that each evaluation stays small. */
module Snapshots {
  import opened Wrappers
  import opened Decimal
  import opened Units
  import opened Benchmark
  import opened RelativeSpeed
  import opened Sorting
  import opened Markup
  import opened Export

  // How a two-result table is assembled.

  /** A table of two results: the rows of the two entries, the faster one first
      when sorted by mean, and the input order otherwise. */
  lemma {:induction false} TableOfTwo(rs: seq<BenchmarkResult>, unit: Option<Unit>, order: SortOrder)
    requires AllValid(rs) && |rs| == 2 && 0.0 < rs[0].mean && 0.0 < rs[1].mean
    ensures var b := if rs[1].mean < rs[0].mean then 1 else 0;
            var u := ResolveUnit(unit, rs);
            var first := RowOf(EntryFor(rs[0], rs[b], b == 0), u);
            var second := RowOf(EntryFor(rs[1], rs[b], b == 1), u);
            Tabulate(rs, unit, order)
            == Ok((u, if order == MeanTime && b == 1 then [second, first] else [first, second]))
  {
    var b := if rs[1].mean < rs[0].mean then 1 else 0;
    assert FirstMinimum(rs, b);
    FirstMinimumUnique(rs, b, Fastest(rs));
    var es := Entries(rs, b);
    assert Compute(rs) == Some(es);
    assert es[0] == EntryFor(rs[0], rs[b], b == 0);
    assert es[1] == EntryFor(rs[1], rs[b], b == 1);
    ArrangeTwo(es, order);
    RowsTwo(Arrange(es, order), ResolveUnit(unit, rs));
  }

  /** Two entries keep their order, unless they are sorted by mean and the second is faster. */
  lemma ArrangeTwo(es: seq<Entry>, order: SortOrder)
    requires |es| == 2
    ensures Arrange(es, order)
         == if order == MeanTime && es[1].result.mean < es[0].result.mean then [es[1], es[0]] else es
  {
    if order == MeanTime {
      assert SortByMean(es[1..]) == [es[1]];
      assert SortByMean(es) == Insert(es[0], [es[1]]);
      if es[1].result.mean < es[0].result.mean {
        assert Insert(es[0], [es[1]]) == [es[1]] + Insert(es[0], []);
      } else {
        assert Insert(es[0], [es[1]]) == [es[0], es[1]];
      }
    }
  }

  lemma RowsTwo(es: seq<Entry>, u: Unit)
    requires |es| == 2 && Sound(es[0]) && Sound(es[1])
    ensures Rows(es, u) == [RowOf(es[0], u), RowOf(es[1], u)]
  {
  }

  /** A row whose cells are known. */
  lemma RowIs(e: Entry, u: Unit, mean: string, spread: string, min: string, max: string, relative: string)
    requires Sound(e)
    requires TimeCell(e.result.mean, u) == mean && SpreadCell(e.result.variance, u) == spread
    requires TimeCell(e.result.min, u) == min && TimeCell(e.result.max, u) == max
    requires RelativeCell(e) == relative
    ensures RowOf(e, u) == Row(e.result.command, mean + PlusMinus + spread, min, max, relative)
  {
  }

  // How a cell is evaluated: find the nearest mantissa, then spell it.

  lemma TimeCellIs(seconds: real, u: Unit, n: nat, text: string)
    requires 0.0 <= seconds
    requires Nearest(n, Decimals(u), InUnit(seconds, u))
    requires PointText(n, Decimals(u)) == text
    ensures TimeCell(seconds, u) == text
  {
    FixedOf(InUnit(seconds, u), Decimals(u), n);
  }

  lemma SpreadCellIs(variance: real, u: Unit, n: nat, text: string)
    requires 0.0 <= variance
    requires NearestRoot(n, Decimals(u), VarianceIn(variance, u))
    requires PointText(n, Decimals(u)) == text
    ensures SpreadCell(variance, u) == text
  {
    SqrtFixedOf(VarianceIn(variance, u), Decimals(u), n);
  }

  /** Seconds are shown to the thousandth. */
  lemma ThousandthsScale()
    ensures Pow10(Decimals(Second)) == 1000
  {
  }

  /** The fastest result's own entry shows the bare `1.00`. */
  lemma BaselineIs(r: BenchmarkResult)
    requires Valid(r) && 0.0 < r.mean
    ensures RelativeCell(EntryFor(r, r, true)) == "1.00"
  {
  }

  /** A slower result's entry shows its ratio and the ratio's uncertainty, to two decimals. */
  lemma RelativeIs(r: BenchmarkResult, fastest: BenchmarkResult, ratio: real, ratioVariance: real,
                   n: nat, ratioText: string, m: nat, spreadText: string)
    requires Valid(r) && Valid(fastest) && 0.0 < fastest.mean <= r.mean
    requires EntryFor(r, fastest, false).ratio == ratio
    requires EntryFor(r, fastest, false).ratioVariance == ratioVariance
    requires 0.0 <= ratio && 0.0 <= ratioVariance
    requires Nearest(n, 2, ratio) && PointText(n, 2) == ratioText
    requires NearestRoot(m, 2, ratioVariance) && PointText(m, 2) == spreadText
    ensures RelativeCell(EntryFor(r, fastest, false)) == ratioText + PlusMinus + spreadText
  {
    FixedOf(ratio, 2, n);
    SqrtFixedOf(ratioVariance, 2, m);
  }

  /** A result summarizes three run times when its statistics are theirs. */
  lemma SummarizesThree(r: BenchmarkResult, a: real, b: real, c: real)
    requires r.mean * 3.0 == a + b + c
    requires r.variance * 2.0 == (a - r.mean) * (a - r.mean) + (b - r.mean) * (b - r.mean)
                                 + (c - r.mean) * (c - r.mean)
    requires r.min == a <= b <= c == r.max
    ensures Summarizes(r, [a, b, c])
  {
    var times := [a, b, c];
    assert times[..2] == [a, b] && [a, b][..1] == [a] && [a][..0] == [];
    assert Sum([a]) == a && SquaredDeviations([a], r.mean) == (a - r.mean) * (a - r.mean);
    assert Sum([a, b]) == a + b;
    assert Sum(times) == a + b + c;
    assert SquaredDeviations(times, r.mean)
        == (a - r.mean) * (a - r.mean) + (b - r.mean) * (b - r.mean) + (c - r.mean) * (c - r.mean);
  }

  // Markup export, milliseconds chosen from the first result (tests.rs, test_markup_export_auto_ms).

  /** Run times 0.09, 0.10, 0.14 s and 2, 3, 4 s. */
  function AutoMsResults(): (rs: seq<BenchmarkResult>)
    ensures AllValid(rs)
  {
    [BenchmarkResult("sleep 0.1", 0.11, 0.0007, 0.09, 0.14),
     BenchmarkResult("sleep 2", 3.0, 1.0, 2.0, 4.0)]
  }

  /** The two results summarize the runs the test measures. */
  lemma AutoMsRuns()
    ensures var rs := AutoMsResults();
            && Summarizes(rs[0], [0.09, 0.10, 0.14])
            && Summarizes(rs[1], [2.0, 3.0, 4.0])
  {
    var rs := AutoMsResults();
    SummarizesThree(rs[0], 0.09, 0.10, 0.14);
    SummarizesThree(rs[1], 2.0, 3.0, 4.0);
  }

  lemma AutoMsFirstMean() ensures TimeCell(0.11, MilliSecond) == "110.0"
  { TimeCellIs(0.11, MilliSecond, 1100, "110.0"); }
  lemma AutoMsFirstSpread() ensures SpreadCell(0.0007, MilliSecond) == "26.5"
  { SpreadCellIs(0.0007, MilliSecond, 265, "26.5"); }
  lemma AutoMsFirstMin() ensures TimeCell(0.09, MilliSecond) == "90.0"
  { TimeCellIs(0.09, MilliSecond, 900, "90.0"); }
  lemma AutoMsFirstMax() ensures TimeCell(0.14, MilliSecond) == "140.0"
  { TimeCellIs(0.14, MilliSecond, 1400, "140.0"); }
  lemma AutoMsSecondMean() ensures TimeCell(3.0, MilliSecond) == "3000.0"
  { TimeCellIs(3.0, MilliSecond, 30000, "3000.0"); }
  lemma AutoMsSecondSpread() ensures SpreadCell(1.0, MilliSecond) == "1000.0"
  { SpreadCellIs(1.0, MilliSecond, 10000, "1000.0"); }
  lemma AutoMsSecondMin() ensures TimeCell(2.0, MilliSecond) == "2000.0"
  { TimeCellIs(2.0, MilliSecond, 20000, "2000.0"); }
  lemma AutoMsSecondMax() ensures TimeCell(4.0, MilliSecond) == "4000.0"
  { TimeCellIs(4.0, MilliSecond, 40000, "4000.0"); }
  lemma AutoMsSecondRelative()
    ensures var rs := AutoMsResults();
            RelativeCell(EntryFor(rs[1], rs[0], false)) == "27.27" + PlusMinus + "11.21"
  {
    var rs := AutoMsResults();
    RelativeIs(rs[1], rs[0], 300.0 / 11.0, 1840000.0 / 14641.0, 2727, "27.27", 1121, "11.21");
  }

  lemma AutoMsFirstRow()
    ensures var rs := AutoMsResults();
            RowOf(EntryFor(rs[0], rs[0], true), MilliSecond)
            == Row("sleep 0.1", "110.0" + PlusMinus + "26.5", "90.0", "140.0", "1.00")
  {
    var r := AutoMsResults()[0];
    AutoMsFirstMean(); AutoMsFirstSpread(); AutoMsFirstMin(); AutoMsFirstMax();
    BaselineIs(r);
    RowIs(EntryFor(r, r, true), MilliSecond, "110.0", "26.5", "90.0", "140.0", "1.00");
  }

  lemma AutoMsSecondRow()
    ensures var rs := AutoMsResults();
            RowOf(EntryFor(rs[1], rs[0], false), MilliSecond)
            == Row("sleep 2", "3000.0" + PlusMinus + "1000.0", "2000.0", "4000.0", "27.27" + PlusMinus + "11.21")
  {
    var rs := AutoMsResults();
    AutoMsSecondMean(); AutoMsSecondSpread(); AutoMsSecondMin(); AutoMsSecondMax();
    AutoMsSecondRelative();
    RowIs(EntryFor(rs[1], rs[0], false), MilliSecond, "3000.0", "1000.0", "2000.0", "4000.0",
          "27.27" + PlusMinus + "11.21");
  }

  /** With no unit given, the first result's mean of 0.11 s selects milliseconds for
      every cell, and the faster first result is the baseline. */
  lemma AutoMsBaseline()
    ensures var rs := AutoMsResults(); FirstMinimum(rs, 0) && 0.0 < rs[0].mean
  {
  }

  lemma AutoMsUnit()
    ensures ResolveUnit(None, AutoMsResults()) == MilliSecond
  {
  }

  lemma AutoMsTable()
    ensures Tabulate(AutoMsResults(), None, Command)
         == Ok((MilliSecond,
                [Row("sleep 0.1", "110.0" + PlusMinus + "26.5", "90.0", "140.0", "1.00"),
                 Row("sleep 2", "3000.0" + PlusMinus + "1000.0", "2000.0", "4000.0",
                     "27.27" + PlusMinus + "11.21")]))
  {
    var rs := AutoMsResults();
    AutoMsBaseline();
    AutoMsUnit();
    AutoMsFirstRow();
    AutoMsSecondRow();
    TableOfTwo(rs, None, Command);
  }

  // Markup export, seconds chosen from the first result (tests.rs, test_markup_export_auto_s).

  /** Run times 2.1, 2.2, 2.3 s and 0.1, 0.2, 0.3 s; the second result is the faster. */
  function AutoSResults(): (rs: seq<BenchmarkResult>)
    ensures AllValid(rs)
  {
    [BenchmarkResult("sleep 2", 2.2, 0.01, 2.1, 2.3),
     BenchmarkResult("sleep 0.1", 0.2, 0.01, 0.1, 0.3)]
  }

  lemma AutoSRuns()
    ensures var rs := AutoSResults();
            && Summarizes(rs[0], [2.1, 2.2, 2.3])
            && Summarizes(rs[1], [0.1, 0.2, 0.3])
  {
    var rs := AutoSResults();
    SummarizesThree(rs[0], 2.1, 2.2, 2.3);
    SummarizesThree(rs[1], 0.1, 0.2, 0.3);
  }

  lemma AutoSBaseline()
    ensures var rs := AutoSResults(); FirstMinimum(rs, 1) && 0.0 < rs[1].mean
  {
  }

  lemma AutoSUnit()
    ensures ResolveUnit(None, AutoSResults()) == Second
  {
  }

  lemma AutoSFirstMean() ensures TimeCell(2.2, Second) == "2.200"
  { ThousandthsScale(); TimeCellIs(2.2, Second, 2200, "2.200"); }
  lemma AutoSFirstMin() ensures TimeCell(2.1, Second) == "2.100"
  { ThousandthsScale(); TimeCellIs(2.1, Second, 2100, "2.100"); }
  lemma AutoSFirstMax() ensures TimeCell(2.3, Second) == "2.300"
  { ThousandthsScale(); TimeCellIs(2.3, Second, 2300, "2.300"); }
  lemma AutoSSpread() ensures SpreadCell(0.01, Second) == "0.100"
  { ThousandthsScale(); SpreadCellIs(0.01, Second, 100, "0.100"); }
  lemma AutoSFirstRelative()
    ensures var rs := AutoSResults();
            RelativeCell(EntryFor(rs[0], rs[1], false)) == "11.00" + PlusMinus + "5.52"
  {
    var rs := AutoSResults();
    RelativeIs(rs[0], rs[1], 11.0, 61.0 / 2.0, 1100, "11.00", 552, "5.52");
  }
  lemma AutoSFirstRow()
    ensures var rs := AutoSResults();
            RowOf(EntryFor(rs[0], rs[1], false), Second)
            == Row("sleep 2", "2.200" + PlusMinus + "0.100", "2.100", "2.300", "11.00" + PlusMinus + "5.52")
  {
    var rs := AutoSResults();
    AutoSFirstMean(); AutoSSpread(); AutoSFirstMin(); AutoSFirstMax();
    AutoSFirstRelative();
    RowIs(EntryFor(rs[0], rs[1], false), Second, "2.200", "0.100", "2.100", "2.300",
          "11.00" + PlusMinus + "5.52");
  }
  lemma AutoSSecondMean() ensures TimeCell(0.2, Second) == "0.200"
  { ThousandthsScale(); TimeCellIs(0.2, Second, 200, "0.200"); }
  lemma AutoSSecondMin() ensures TimeCell(0.1, Second) == "0.100"
  { ThousandthsScale(); TimeCellIs(0.1, Second, 100, "0.100"); }
  lemma AutoSSecondMax() ensures TimeCell(0.3, Second) == "0.300"
  { ThousandthsScale(); TimeCellIs(0.3, Second, 300, "0.300"); }
  lemma AutoSSecondRow()
    ensures var rs := AutoSResults();
            RowOf(EntryFor(rs[1], rs[1], true), Second)
            == Row("sleep 0.1", "0.200" + PlusMinus + "0.100", "0.100", "0.300", "1.00")
  {
    var rs := AutoSResults();
    AutoSSecondMean(); AutoSSpread(); AutoSSecondMin(); AutoSSecondMax();
    BaselineIs(rs[1]);
    RowIs(EntryFor(rs[1], rs[1], true), Second, "0.200", "0.100", "0.100", "0.300",
          "1.00");
  }

  /** With no unit given, the first result's mean of 2.2 s selects seconds; the second
      result is the baseline, yet the rows keep their input order. */
  lemma AutoSTable()
    ensures Tabulate(AutoSResults(), None, Command)
         == Ok((Second,
                [Row("sleep 2", "2.200" + PlusMinus + "0.100", "2.100", "2.300", "11.00" + PlusMinus + "5.52"),
                 Row("sleep 0.1", "0.200" + PlusMinus + "0.100", "0.100", "0.300", "1.00")]))
  {
    var rs := AutoSResults();
    AutoSBaseline();
    AutoSUnit();
    AutoSFirstRow();
    AutoSSecondRow();
    TableOfTwo(rs, None, Command);
  }

  // Markup export, milliseconds requested (tests.rs, test_markup_export_manual_ms).

  lemma ManualMsUnit()
    ensures ResolveUnit(Some(MilliSecond), AutoSResults()) == MilliSecond
  {
  }

  lemma ManualMsFirstMean() ensures TimeCell(2.2, MilliSecond) == "2200.0"
  { TimeCellIs(2.2, MilliSecond, 22000, "2200.0"); }
  lemma ManualMsFirstMin() ensures TimeCell(2.1, MilliSecond) == "2100.0"
  { TimeCellIs(2.1, MilliSecond, 21000, "2100.0"); }
  lemma ManualMsFirstMax() ensures TimeCell(2.3, MilliSecond) == "2300.0"
  { TimeCellIs(2.3, MilliSecond, 23000, "2300.0"); }
  lemma ManualMsSpread() ensures SpreadCell(0.01, MilliSecond) == "100.0"
  { SpreadCellIs(0.01, MilliSecond, 1000, "100.0"); }
  lemma ManualMsFirstRow()
    ensures var rs := AutoSResults();
            RowOf(EntryFor(rs[0], rs[1], false), MilliSecond)
            == Row("sleep 2", "2200.0" + PlusMinus + "100.0", "2100.0", "2300.0", "11.00" + PlusMinus + "5.52")
  {
    var rs := AutoSResults();
    ManualMsFirstMean(); ManualMsSpread(); ManualMsFirstMin(); ManualMsFirstMax();
    AutoSFirstRelative();
    RowIs(EntryFor(rs[0], rs[1], false), MilliSecond, "2200.0", "100.0", "2100.0", "2300.0",
          "11.00" + PlusMinus + "5.52");
  }
  lemma ManualMsSecondMean() ensures TimeCell(0.2, MilliSecond) == "200.0"
  { TimeCellIs(0.2, MilliSecond, 2000, "200.0"); }
  lemma ManualMsSecondMin() ensures TimeCell(0.1, MilliSecond) == "100.0"
  { TimeCellIs(0.1, MilliSecond, 1000, "100.0"); }
  lemma ManualMsSecondMax() ensures TimeCell(0.3, MilliSecond) == "300.0"
  { TimeCellIs(0.3, MilliSecond, 3000, "300.0"); }
  lemma ManualMsSecondRow()
    ensures var rs := AutoSResults();
            RowOf(EntryFor(rs[1], rs[1], true), MilliSecond)
            == Row("sleep 0.1", "200.0" + PlusMinus + "100.0", "100.0", "300.0", "1.00")
  {
    var rs := AutoSResults();
    ManualMsSecondMean(); ManualMsSpread(); ManualMsSecondMin(); ManualMsSecondMax();
    BaselineIs(rs[1]);
    RowIs(EntryFor(rs[1], rs[1], true), MilliSecond, "200.0", "100.0", "100.0", "300.0",
          "1.00");
  }

  /** The requested milliseconds win over the seconds the first mean would select;
      the relative column does not depend on the unit. */
  lemma ManualMsTable()
    ensures Tabulate(AutoSResults(), Some(MilliSecond), Command)
         == Ok((MilliSecond,
                [Row("sleep 2", "2200.0" + PlusMinus + "100.0", "2100.0", "2300.0", "11.00" + PlusMinus + "5.52"),
                 Row("sleep 0.1", "200.0" + PlusMinus + "100.0", "100.0", "300.0", "1.00")]))
  {
    var rs := AutoSResults();
    AutoSBaseline();
    ManualMsUnit();
    ManualMsFirstRow();
    ManualMsSecondRow();
    TableOfTwo(rs, Some(MilliSecond), Command);
  }

  // Markup export, seconds requested (tests.rs, test_markup_export_manual_s).

  /** Run times 2.01, 2.02, 2.03 s and 0.11, 0.12, 0.13 s. */
  function ManualSResults(): (rs: seq<BenchmarkResult>)
    ensures AllValid(rs)
  {
    [BenchmarkResult("sleep 2", 2.02, 0.0001, 2.01, 2.03),
     BenchmarkResult("sleep 0.1", 0.12, 0.0001, 0.11, 0.13)]
  }

  lemma ManualSRuns()
    ensures var rs := ManualSResults();
            && Summarizes(rs[0], [2.01, 2.02, 2.03])
            && Summarizes(rs[1], [0.11, 0.12, 0.13])
  {
    var rs := ManualSResults();
    SummarizesThree(rs[0], 2.01, 2.02, 2.03);
    SummarizesThree(rs[1], 0.11, 0.12, 0.13);
  }

  lemma ManualSBaseline()
    ensures var rs := ManualSResults(); FirstMinimum(rs, 1) && 0.0 < rs[1].mean
  {
  }

  lemma ManualSUnit()
    ensures ResolveUnit(Some(Second), ManualSResults()) == Second
  {
  }

  lemma ManualSFirstMean() ensures TimeCell(2.02, Second) == "2.020"
  { ThousandthsScale(); TimeCellIs(2.02, Second, 2020, "2.020"); }
  lemma ManualSFirstMin() ensures TimeCell(2.01, Second) == "2.010"
  { ThousandthsScale(); TimeCellIs(2.01, Second, 2010, "2.010"); }
  lemma ManualSFirstMax() ensures TimeCell(2.03, Second) == "2.030"
  { ThousandthsScale(); TimeCellIs(2.03, Second, 2030, "2.030"); }
  lemma ManualSSpread() ensures SpreadCell(0.0001, Second) == "0.010"
  {
    ThousandthsScale();
    assert NatText(10) == "10";
    assert ZeroPad("10", 4) == ZeroPad("010", 4) == "0010";
    SpreadCellIs(0.0001, Second, 10, "0.010");
  }
  lemma ManualSFirstRelative()
    ensures var rs := ManualSResults();
            RelativeCell(EntryFor(rs[0], rs[1], false)) == "16.83" + PlusMinus + "1.41"
  {
    var rs := ManualSResults();
    RelativeIs(rs[0], rs[1], 101.0 / 6.0, 10237.0 / 5184.0, 1683, "16.83", 141, "1.41");
  }
  lemma ManualSFirstRow()
    ensures var rs := ManualSResults();
            RowOf(EntryFor(rs[0], rs[1], false), Second)
            == Row("sleep 2", "2.020" + PlusMinus + "0.010", "2.010", "2.030", "16.83" + PlusMinus + "1.41")
  {
    var rs := ManualSResults();
    ManualSFirstMean(); ManualSSpread(); ManualSFirstMin(); ManualSFirstMax();
    ManualSFirstRelative();
    RowIs(EntryFor(rs[0], rs[1], false), Second, "2.020", "0.010", "2.010", "2.030",
          "16.83" + PlusMinus + "1.41");
  }
  lemma ManualSSecondMean() ensures TimeCell(0.12, Second) == "0.120"
  { ThousandthsScale(); TimeCellIs(0.12, Second, 120, "0.120"); }
  lemma ManualSSecondMin() ensures TimeCell(0.11, Second) == "0.110"
  { ThousandthsScale(); TimeCellIs(0.11, Second, 110, "0.110"); }
  lemma ManualSSecondMax() ensures TimeCell(0.13, Second) == "0.130"
  { ThousandthsScale(); TimeCellIs(0.13, Second, 130, "0.130"); }
  lemma ManualSSecondRow()
    ensures var rs := ManualSResults();
            RowOf(EntryFor(rs[1], rs[1], true), Second)
            == Row("sleep 0.1", "0.120" + PlusMinus + "0.010", "0.110", "0.130", "1.00")
  {
    var rs := ManualSResults();
    ManualSSecondMean(); ManualSSpread(); ManualSSecondMin(); ManualSSecondMax();
    BaselineIs(rs[1]);
    RowIs(EntryFor(rs[1], rs[1], true), Second, "0.120", "0.010", "0.110", "0.130",
          "1.00");
  }

  /** Seconds requested, input order: the slower first result stays on top. */
  lemma ManualSTable()
    ensures Tabulate(ManualSResults(), Some(Second), Command)
         == Ok((Second,
                [Row("sleep 2", "2.020" + PlusMinus + "0.010", "2.010", "2.030", "16.83" + PlusMinus + "1.41"),
                 Row("sleep 0.1", "0.120" + PlusMinus + "0.010", "0.110", "0.130", "1.00")]))
  {
    var rs := ManualSResults();
    ManualSBaseline();
    ManualSUnit();
    ManualSFirstRow();
    ManualSSecondRow();
    TableOfTwo(rs, Some(Second), Command);
  }

  /** Seconds requested, sorted by mean: the baseline moves to the top. */
  lemma ManualSMeanTimeTable()
    ensures Tabulate(ManualSResults(), Some(Second), MeanTime)
         == Ok((Second,
                [Row("sleep 0.1", "0.120" + PlusMinus + "0.010", "0.110", "0.130", "1.00"),
                 Row("sleep 2", "2.020" + PlusMinus + "0.010", "2.010", "2.030", "16.83" + PlusMinus + "1.41")]))
  {
    var rs := ManualSResults();
    ManualSBaseline();
    ManualSUnit();
    ManualSFirstRow();
    ManualSSecondRow();
    TableOfTwo(rs, Some(Second), MeanTime);
  }
}
