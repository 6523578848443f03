/** What every markup exporter does with a list of benchmark results: pick the
    time unit, compute the speeds relative to the fastest result, order the rows,
    format the cells and render the table in the requested format. */
module Export {
  import opened Wrappers
  import opened Decimal
  import opened Units
  import opened Benchmark
  import opened RelativeSpeed
  import opened Sorting
  import opened Markup
  import opened Lists
  import opened Text

  /** Why no table can be written: there is nothing to compare, or the fastest
      mean is zero and no ratio is defined. */
  datatype ExportError = NoResults | UndefinedRatio

  /** The unit of every time cell: the one asked for, otherwise the one that suits
      the first result's mean, whatever the later results are. */
  function ResolveUnit(unit: Option<Unit>, rs: seq<BenchmarkResult>): (u: Unit)
    ensures unit.Some? ==> u == unit.value
    ensures unit.None? && |rs| > 0 ==> (u == MilliSecond <==> rs[0].mean < 1.0)
    ensures unit.None? && |rs| == 0 ==> u == Second
  {
    match unit
    case Some(explicit) => explicit
    case None => if |rs| == 0 then Second else SuitableUnit(rs[0].mean)
  }

  /** The separator between a value and its uncertainty. */
  const PlusMinus: string := " ± "

  /** A time in seconds as shown in `u`: the nearest number of `u` with the
      unit's number of decimals. */
  function TimeCell(seconds: real, u: Unit): (s: string)
    requires 0.0 <= seconds
    ensures Shows(s, Decimals(u), InUnit(seconds, u))
  {
    Fixed(InUnit(seconds, u), Decimals(u))
  }

  /** The standard deviation, the square root of `variance`, as shown in `u`. */
  function SpreadCell(variance: real, u: Unit): (s: string)
    requires 0.0 <= variance
    ensures ShowsRoot(s, Decimals(u), VarianceIn(variance, u))
  {
    SqrtFixed(VarianceIn(variance, u), Decimals(u))
  }

  /** A variance in square seconds expressed in square `u`. */
  function VarianceIn(variance: real, u: Unit): (v: real)
    requires 0.0 <= variance
    ensures 0.0 <= v
  {
    var k := PerSecond(u);
    assert 0.0 <= variance * k;
    variance * k * k
  }

  /** The Relative cell: the ratio alone for the fastest result, the ratio and its
      uncertainty for every other one. */
  function RelativeCell(e: Entry): (s: string)
    requires Sound(e)
    ensures DescribesRelative(s, e)
    ensures PlainCell(s)
    ensures e.isFastest && e.ratio == 1.0 ==> s == "1.00"
    ensures !e.isFastest ==> '±' in s && s != "1.00"
  {
    if e.isFastest then
      BaselineCell(e.ratio);
      RatioText(e.ratio)
    else
      UncertainCell(RatioText(e.ratio), SqrtFixed(e.ratioVariance, 2));
      SplitUncertainJoin(RatioText(e.ratio), SqrtFixed(e.ratioVariance, 2));
      RatioText(e.ratio) + PlusMinus + SqrtFixed(e.ratioVariance, 2)
  }

  /** The value and the uncertainty of a `value ± uncertainty` cell. */
  function SplitUncertain(cell: string): Option<(string, string)>
  {
    var parts := Split(cell, '±');
    if |parts| != 2 then None
    else
      match (Unwrap(parts[0], "", " "), Unwrap(parts[1], " ", ""))
      case (Some(value), Some(uncertainty)) => Some((value, uncertainty))
      case _ => None
  }

  /** A value and an uncertainty joined by ` ± ` split back apart. */
  lemma SplitUncertainJoin(a: string, b: string)
    requires '±' !in a && '±' !in b
    ensures SplitUncertain(a + PlusMinus + b) == Some((a, b))
  {
    var parts := [a + " ", " " + b];
    assert a + PlusMinus + b == Join(parts, '±');
    SplitJoin(parts, '±');
    UnwrapWrapped(a, "", " ");
    UnwrapWrapped(b, " ", "");
    assert "" + a + " " == a + " " && " " + b + "" == " " + b;
  }

  /** A cell that splits is the two halves joined by ` ± `. */
  lemma SplitUncertainInverse(cell: string)
    requires SplitUncertain(cell).Some?
    ensures var (a, b) := SplitUncertain(cell).value; cell == a + PlusMinus + b
  {
    var parts := Split(cell, '±');
    var (a, b) := SplitUncertain(cell).value;
    JoinSplit(cell, '±');
    UnwrapInverse(parts[0], "", " ");
    UnwrapInverse(parts[1], " ", "");
    assert cell == parts[0] + "±" + parts[1];
  }

  /** What the Relative cell shows for `e`: the nearest two-decimal ratio for the
      fastest result; for every other one the nearest two-decimal ratio, ` ± `, and
      the nearest two-decimal uncertainty. */
  ghost predicate DescribesRelative(s: string, e: Entry)
    requires Sound(e)
  {
    if e.isFastest then Shows(s, 2, e.ratio)
    else
      && SplitUncertain(s).Some?
      && Shows(SplitUncertain(s).value.0, 2, e.ratio)
      && ShowsRoot(SplitUncertain(s).value.1, 2, e.ratioVariance)
  }

  /** What each cell of `e`'s row shows in unit `u`: the bare command; the mean
      ` ± ` the standard deviation; the minimum; the maximum; the relative speed.
      Every time has the unit's number of decimals and is the nearest such value. */
  ghost predicate DescribesRow(row: Row, e: Entry, u: Unit)
    requires Sound(e)
  {
    var r := e.result;
    var d := Decimals(u);
    && row.command == r.command
    && SplitUncertain(row.mean).Some?
    && Shows(SplitUncertain(row.mean).value.0, d, InUnit(r.mean, u))
    && ShowsRoot(SplitUncertain(row.mean).value.1, d, VarianceIn(r.variance, u))
    && Shows(row.min, d, InUnit(r.min, u))
    && Shows(row.max, d, InUnit(r.max, u))
    && DescribesRelative(row.relative, e)
  }

  /** One table row. The command stays bare; each format marks it up itself. */
  function RowOf(e: Entry, u: Unit): Row
    requires Sound(e)
  {
    var r := e.result;
    Row(r.command, TimeCell(r.mean, u) + PlusMinus + SpreadCell(r.variance, u),
        TimeCell(r.min, u), TimeCell(r.max, u), RelativeCell(e))
  }

  /** A row shows its entry cell by cell as `DescribesRow` says, holds only plain
      cells, and shows the bare ratio `1.00` for the fastest result and a ratio with
      its uncertainty for every other. */
  lemma RowOfCells(e: Entry, u: Unit)
    requires Sound(e)
    ensures DescribesRow(RowOf(e, u), e, u)
    ensures var row := RowOf(e, u);
            && PlainCell(row.mean) && PlainCell(row.min) && PlainCell(row.max)
            && PlainCell(row.relative)
            && (e.isFastest && e.ratio == 1.0 ==> row.relative == "1.00")
            && (!e.isFastest ==> row.relative != "1.00" && '±' in row.relative)
  {
    var r := e.result;
    UncertainCell(TimeCell(r.mean, u), SpreadCell(r.variance, u));
    SplitUncertainJoin(TimeCell(r.mean, u), SpreadCell(r.variance, u));
    NumberPlain(TimeCell(r.min, u));
    NumberPlain(TimeCell(r.max, u));
  }

  /** The cells' descriptions leave one row: any row they describe is `RowOf`'s. */
  lemma RowDetermined(row: Row, e: Entry, u: Unit)
    requires Sound(e) && DescribesRow(row, e, u)
    ensures row == RowOf(e, u)
  {
    var r := e.result;
    var d := Decimals(u);
    var expected := RowOf(e, u);
    RowOfCells(e, u);
    SplitUncertainInverse(row.mean);
    SplitUncertainInverse(expected.mean);
    ShowsUnique(SplitUncertain(row.mean).value.0, SplitUncertain(expected.mean).value.0, d, InUnit(r.mean, u));
    ShowsRootUnique(SplitUncertain(row.mean).value.1, SplitUncertain(expected.mean).value.1, d,
                    VarianceIn(r.variance, u));
    ShowsUnique(row.min, expected.min, d, InUnit(r.min, u));
    ShowsUnique(row.max, expected.max, d, InUnit(r.max, u));
    if e.isFastest {
      ShowsUnique(row.relative, expected.relative, 2, e.ratio);
    } else {
      SplitUncertainInverse(row.relative);
      SplitUncertainInverse(expected.relative);
      ShowsUnique(SplitUncertain(row.relative).value.0, SplitUncertain(expected.relative).value.0, 2, e.ratio);
      ShowsRootUnique(SplitUncertain(row.relative).value.1, SplitUncertain(expected.relative).value.1, 2,
                      e.ratioVariance);
    }
  }

  /** A value with its uncertainty is a plain cell, and the `±` sets it apart from a bare ratio. */
  lemma UncertainCell(a: string, b: string)
    requires NumberText(a) && NumberText(b)
    ensures PlainCell(a + PlusMinus + b)
    ensures '±' in a + PlusMinus + b && a + PlusMinus + b != "1.00"
  {
    var s := a + PlusMinus + b;
    NumberPlain(a);
    NumberPlain(b);
    assert s[|a| + 1] == '±';
    assert '±' !in "1.00";
  }

  /** The fastest result's cell: its ratio alone, `1.00` when the ratio is exactly one. */
  lemma BaselineCell(ratio: real)
    requires 0.0 <= ratio
    ensures PlainCell(RatioText(ratio))
    ensures ratio == 1.0 ==> RatioText(ratio) == "1.00"
  {
    NumberPlain(RatioText(ratio));
    if ratio == 1.0 {
      RatioOne();
    }
  }

  /** Rendered numbers hold neither `|` nor a line break. */
  lemma NumberPlain(s: string)
    requires NumberText(s)
    ensures PlainCell(s)
  {
    assert forall i :: 0 <= i < |s| ==> s[i] != '|' && s[i] != '\n';
  }

  /** The fastest result's ratio, exactly one, is written `1.00`. */
  lemma RatioOne()
    ensures RatioText(1.0) == "1.00"
  {
    FixedOf(1.0, 2, 100);
    assert NatText(100) == "100";
    assert ZeroPad("100", 3) == "100";
  }

  /** The rows for `es`, one per entry, in the order of `es`. */
  function Rows(es: seq<Entry>, u: Unit): (rows: seq<Row>)
    requires forall i :: 0 <= i < |es| ==> Sound(es[i])
    ensures |rows| == |es|
    ensures forall i :: 0 <= i < |es| ==> rows[i] == RowOf(es[i], u)
  {
    Map(RowMaker(u), es)
  }

  /** `RowOf` as a total function; `Rows` only applies it to sound entries. */
  function RowMaker(u: Unit): Entry -> Row
  {
    e => if Sound(e) then RowOf(e, u) else Row("", "", "", "", "")
  }

  /** The unit and the rows of the table for `rs`, or why there is no table. */
  function Tabulate(rs: seq<BenchmarkResult>, unit: Option<Unit>, order: SortOrder)
    : (t: Result<(Unit, seq<Row>), ExportError>)
    requires AllValid(rs)
    ensures t == Err(NoResults) <==> |rs| == 0
    ensures t == Err(UndefinedRatio) <==> |rs| > 0 && rs[Fastest(rs)].mean == 0.0
    ensures t.Ok? ==> t.value.0 == ResolveUnit(unit, rs) && |t.value.1| == |rs|
  {
    if |rs| == 0 then Err(NoResults)
    else
      match Compute(rs)
      case None => Err(UndefinedRatio)
      case Some(es) =>
        var u := ResolveUnit(unit, rs);
        var arranged := Arrange(es, order);
        SoundArranged(rs, es, order);
        Ok((u, Rows(arranged, u)))
  }

  /** Every entry of the arranged list is one of the computed entries: sound, and
      with a plain command when all commands are plain. */
  lemma {:induction false} SoundArranged(rs: seq<BenchmarkResult>, es: seq<Entry>, order: SortOrder)
    requires AllValid(rs) && |rs| > 0 && RelativeTo(rs, es, Fastest(rs))
    ensures forall i :: 0 <= i < |es| ==> Sound(Arrange(es, order)[i])
    ensures PlainCommands(rs) ==>
              forall i :: 0 <= i < |es| ==> PlainCell(Arrange(es, order)[i].result.command)
  {
    var arranged := Arrange(es, order);
    forall i | 0 <= i < |es|
      ensures Sound(arranged[i])
      ensures PlainCommands(rs) ==> PlainCell(arranged[i].result.command)
    {
      assert arranged[i] in multiset(es);
      var j :| 0 <= j < |es| && es[j] == arranged[i];
      assert arranged[i].result == rs[j];
    }
  }

  /** There are results and every mean is positive: what a table needs. */
  predicate Measurable(rs: seq<BenchmarkResult>)
  {
    |rs| > 0 && forall i :: 0 <= i < |rs| ==> 0.0 < rs[i].mean
  }

  /** A table exists exactly when there are results and none has a zero mean,
      whichever order is asked for. */
  lemma {:induction false} TabulateOk(rs: seq<BenchmarkResult>, unit: Option<Unit>, order: SortOrder)
    requires AllValid(rs)
    ensures Tabulate(rs, unit, order).Ok? <==> Measurable(rs)
  {
    if |rs| > 0 {
      ZeroFastestIffSomeZero(rs);
      if !Measurable(rs) {
        var i :| 0 <= i < |rs| && !(0.0 < rs[i].mean);
        assert Valid(rs[i]);
      }
    }
  }

  /** The whole table as text in format `f`. */
  function Serialize(f: Format, rs: seq<BenchmarkResult>, unit: Option<Unit>, order: SortOrder)
    : (out: Result<string, ExportError>)
    requires AllValid(rs)
    ensures out.Err? <==> Tabulate(rs, unit, order).Err?
    ensures out.Err? ==> out.error == Tabulate(rs, unit, order).error
  {
    match Tabulate(rs, unit, order)
    case Err(e) => Err(e)
    case Ok((u, rows)) => Ok(Markup.Render(f, u, rows))
  }

  /** No command holds a `|` or a line break. */
  predicate PlainCommands(rs: seq<BenchmarkResult>)
  {
    forall i :: 0 <= i < |rs| ==> PlainCell(rs[i].command)
  }

  /** The serialized table reads back as the resolved unit's header and one row
      per result, in the requested order: nothing else is in the text. */
  lemma {:induction false} SerializeDecodes(f: Format, rs: seq<BenchmarkResult>, unit: Option<Unit>, order: SortOrder)
    requires AllValid(rs) && PlainCommands(rs) && Measurable(rs)
    ensures Serialize(f, rs, unit, order).Ok? && Tabulate(rs, unit, order).Ok?
    ensures var (u, rows) := Tabulate(rs, unit, order).value;
            Decode(f, Serialize(f, rs, unit, order).value) == Some(Table(HeaderCells(u), rows))
  {
    TabulateOk(rs, unit, order);
    var (u, rows) := Tabulate(rs, unit, order).value;
    RowsPlain(rs, unit, order);
    DecodeRender(f, u, rows);
  }

  /** Rows built from results whose commands are plain are plain. */
  lemma {:induction false} RowsPlain(rs: seq<BenchmarkResult>, unit: Option<Unit>, order: SortOrder)
    requires AllValid(rs) && PlainCommands(rs) && Measurable(rs)
    ensures Tabulate(rs, unit, order).Ok? && PlainRows(Tabulate(rs, unit, order).value.1)
  {
    TabulateOk(rs, unit, order);
    var es := Compute(rs).value;
    SoundArranged(rs, es, order);
    PlainRowsOf(Arrange(es, order), Tabulate(rs, unit, order).value.0);
  }

  lemma {:induction false} PlainRowsOf(es: seq<Entry>, u: Unit)
    requires forall i :: 0 <= i < |es| ==> Sound(es[i]) && PlainCell(es[i].result.command)
    ensures PlainRows(Rows(es, u))
  {
    forall i | 0 <= i < |es|
      ensures PlainRow(Rows(es, u)[i])
    {
      RowOfCells(es[i], u);
    }
  }

  // Order and baseline.

  /** In command order row `i` is the row of the `i`-th result's entry, described
      cell by cell, and exactly the fastest result's row shows the bare ratio `1.00`. */
  lemma {:induction false} CommandOrderRows(rs: seq<BenchmarkResult>, unit: Option<Unit>)
    requires AllValid(rs) && Measurable(rs)
    ensures Tabulate(rs, unit, Command).Ok? && Compute(rs).Some?
    ensures var (u, rows) := Tabulate(rs, unit, Command).value;
            var es := Compute(rs).value;
            forall i :: 0 <= i < |rs| ==>
              && es[i].result == rs[i]
              && rows[i] == RowOf(es[i], u)
              && DescribesRow(rows[i], es[i], u)
              && (rows[i].relative == "1.00" <==> i == Fastest(rs))
  {
    TabulateOk(rs, unit, Command);
    var (u, rows) := Tabulate(rs, unit, Command).value;
    var es := Compute(rs).value;
    OneFastest(rs);
    forall i | 0 <= i < |rs|
      ensures rows[i] == RowOf(es[i], u) && DescribesRow(rows[i], es[i], u)
      ensures rows[i].relative == "1.00" <==> i == Fastest(rs)
    {
      assert rows[i] == RowOf(es[i], u);
      RowOfCells(es[i], u);
    }
  }

  /** Both orders give the same unit and the same rows, cell for cell; only their
      order may differ. */
  lemma {:induction false} OrdersAgree(rs: seq<BenchmarkResult>, unit: Option<Unit>)
    requires AllValid(rs) && Measurable(rs)
    ensures Tabulate(rs, unit, Command).Ok? && Tabulate(rs, unit, MeanTime).Ok?
    ensures Tabulate(rs, unit, MeanTime).value.0 == Tabulate(rs, unit, Command).value.0
    ensures multiset(Tabulate(rs, unit, MeanTime).value.1)
         == multiset(Tabulate(rs, unit, Command).value.1)
  {
    TabulateOk(rs, unit, Command);
    TabulateOk(rs, unit, MeanTime);
    var es := Compute(rs).value;
    var u := ResolveUnit(unit, rs);
    SoundArranged(rs, es, MeanTime);
    MapPermutation(RowMaker(u), SortByMean(es), es);
  }

  /** In mean-time order the fastest result comes first, and it alone shows the
      bare ratio `1.00`. */
  lemma {:induction false} MeanTimeBaselineFirst(rs: seq<BenchmarkResult>, unit: Option<Unit>)
    requires AllValid(rs) && Measurable(rs)
    ensures Tabulate(rs, unit, MeanTime).Ok?
    ensures var rows := Tabulate(rs, unit, MeanTime).value.1;
            && rows[0].command == rs[Fastest(rs)].command
            && forall i :: 0 <= i < |rows| ==> (rows[i].relative == "1.00" <==> i == 0)
  {
    TabulateOk(rs, unit, MeanTime);
    var (u, rows) := Tabulate(rs, unit, MeanTime).value;
    var es := Compute(rs).value;
    var sorted := SortByMean(es);
    SoundArranged(rs, es, MeanTime);
    OneFastest(rs);
    SortedFastestFirst(rs, es);
    forall i | 0 <= i < |rows|
      ensures rows[i].relative == "1.00" <==> i == 0
    {
      assert rows[i] == RowOf(sorted[i], u);
      RowOfCells(sorted[i], u);
    }
    assert rows[0] == RowOf(sorted[0], u);
    RowOfCells(sorted[0], u);
  }

  /** In mean-time order row `i` is the row of the `i`-th entry of a reordering of
      the computed entries whose means never decrease and in which entries with
      equal means keep their input order. */
  lemma {:induction false} MeanTimeRows(rs: seq<BenchmarkResult>, unit: Option<Unit>)
    requires AllValid(rs) && Measurable(rs)
    ensures Tabulate(rs, unit, MeanTime).Ok? && Compute(rs).Some?
    ensures var (u, rows) := Tabulate(rs, unit, MeanTime).value;
            var es := Compute(rs).value;
            var sorted := SortByMean(es);
            && |rows| == |sorted|
            && (forall i :: 0 <= i < |sorted| ==> Sound(sorted[i]))
            && (forall i :: 0 <= i < |rows| ==> rows[i] == RowOf(sorted[i], u))
            && SortedByMean(sorted)
            && multiset(sorted) == multiset(es)
            && (forall m :: WithMean(sorted, m) == WithMean(es, m))
  {
    TabulateOk(rs, unit, MeanTime);
    var es := Compute(rs).value;
    var u := ResolveUnit(unit, rs);
    SoundArranged(rs, es, MeanTime);
    assert Tabulate(rs, unit, MeanTime) == Ok((u, Rows(SortByMean(es), u)));
    forall m
      ensures WithMean(SortByMean(es), m) == WithMean(es, m)
    {
      SortByMeanStable(es, m);
    }
  }

  /** Sorted by mean, the computed entries hold the fastest one first and nowhere else. */
  lemma {:induction false} SortedFastestFirst(rs: seq<BenchmarkResult>, es: seq<Entry>)
    requires AllValid(rs) && |rs| > 0 && RelativeTo(rs, es, Fastest(rs))
    ensures SortByMean(es)[0] == es[Fastest(rs)]
    ensures forall i :: 0 <= i < |es| ==> (SortByMean(es)[i].isFastest <==> i == 0)
  {
    var b := Fastest(rs);
    var sorted := SortByMean(es);
    SortedHeadIsFastest(rs, es);
    OnlyOnce(es, b);
    forall i | 0 < i < |es|
      ensures !sorted[i].isFastest
    {
      assert sorted[i] in multiset(es);
      var j :| 0 <= j < |es| && es[j] == sorted[i];
      if j == b {
        TwiceCounted(sorted, 0, i);
      }
    }
  }

  /** The computed entries hold the fastest one exactly once. */
  lemma {:induction false} OnlyOnce(es: seq<Entry>, b: int)
    requires 0 <= b < |es|
    requires forall j :: 0 <= j < |es| && j != b ==> es[j].isFastest != es[b].isFastest
    ensures multiset(es)[es[b]] == 1
  {
    var x := es[b];
    assert es == es[..b] + [x] + es[b + 1..];
    assert x !in es[..b] by {
      forall j | 0 <= j < b ensures es[..b][j] != x {
        assert es[..b][j] == es[j];
      }
    }
    assert x !in es[b + 1..] by {
      var tail := es[b + 1..];
      forall j | 0 <= j < |tail| ensures tail[j] != x {
        assert tail[j] == es[b + 1 + j];
      }
    }
  }

  /** Sorting by mean puts the fastest entry first: it has the smallest mean, and
      the sort is stable, so no entry with an equal mean that came later overtakes it. */
  lemma {:induction false} SortedHeadIsFastest(rs: seq<BenchmarkResult>, es: seq<Entry>)
    requires AllValid(rs) && |rs| > 0 && RelativeTo(rs, es, Fastest(rs))
    ensures SortByMean(es)[0] == es[Fastest(rs)]
  {
    var b := Fastest(rs);
    SortedHeadIs(rs, es, b);
  }

  lemma {:induction false} SortedHeadIs(rs: seq<BenchmarkResult>, es: seq<Entry>, b: nat)
    requires FirstMinimum(rs, b) && RelativeTo(rs, es, b)
    ensures SortByMean(es)[0] == es[b]
  {
    var m := rs[b].mean;
    var sorted := SortByMean(es);
    SortedHeadMean(rs, es, b);
    SortByMeanStable(es, m);
    FirstWithMean(es, b, m);
    assert sorted == [sorted[0]] + sorted[1..];
  }

  /** The entry sorted first has the smallest mean. */
  lemma {:induction false} SortedHeadMean(rs: seq<BenchmarkResult>, es: seq<Entry>, b: nat)
    requires FirstMinimum(rs, b) && RelativeTo(rs, es, b)
    ensures |SortByMean(es)| > 0 && SortByMean(es)[0].result.mean == rs[b].mean
  {
    var sorted := SortByMean(es);
    assert es[b] in multiset(sorted);
    var k :| 0 <= k < |sorted| && sorted[k] == es[b];
    assert sorted[0] in multiset(es);
    var j :| 0 <= j < |es| && es[j] == sorted[0];
    assert sorted[0].result.mean <= sorted[k].result.mean;
    assert es[j].result == rs[j];
  }

  /** The first entry with mean `m` heads the entries with that mean. */
  lemma {:induction false} FirstWithMean(es: seq<Entry>, b: int, m: real)
    requires 0 <= b < |es| && es[b].result.mean == m
    requires forall j :: 0 <= j < b ==> es[j].result.mean != m
    ensures |WithMean(es, m)| > 0 && WithMean(es, m)[0] == es[b]
    decreases b
  {
    if b > 0 {
      FirstWithMean(es[1..], b - 1, m);
    }
  }
}
