# hyperfine markup export, modelled in Dafny

This project models the table exporters of hyperfine: the Markdown, Asciidoc and
Org-mode exporters. Each takes a list of benchmark results, an optional time unit and a
sort order, and writes one table. The table has one header row and one row per benchmarked
command. The five columns are Command, `Mean [unit]`, `Min [unit]`, `Max [unit]` and
Relative.

The behaviour modelled is the one the snapshot tests in `src/export/tests.rs` fix byte for
byte. The exporter implementations themselves are not part of this model. The model is a
specification built from those snapshots.

Pipeline, one module per stage:

- `Benchmark` holds what an exporter reads from a result. That is the command plus the
  mean, sample variance, minimum and maximum of its wall-clock run times, as exact reals in
  seconds. `Summarizes` says when these statistics are those of a list of run times.
- `Export.ResolveUnit` picks the unit. An explicit unit wins. Otherwise the *first*
  result's mean decides: milliseconds below one second, seconds from one second up.
- `RelativeSpeed` finds the baseline. That is the result with the smallest mean, the
  earliest one on a tie. It then computes every result's ratio to the baseline and the
  ratio's propagated uncertainty, `ratio * sqrt((sd/mean)^2 + (sd_base/mean_base)^2)`. The
  uncertainty is carried as its square so that everything stays rational.
- `Sorting.Arrange` handles the row order. `Command` keeps input order. `MeanTime` is a
  stable insertion sort by ascending mean.
- `Decimal` and `Roots` format the numbers. A time is shown in the resolved unit with the
  unit's number of decimals: three for seconds, one for milliseconds. A standard deviation
  is the rounded square root of the variance, computed by an exact integer square root.
  Ratios have two decimals, so the baseline's ratio of exactly one reads `1.00`.
- `Export.RowOf` composes a row's cells. The mean cell is `mean ± sd`. Min and Max are bare
  numbers. Relative is `1.00` for the baseline and `ratio ± uncertainty` for every other row.
- `Markup` holds the three line grammars. They share one layout function, and a decoder
  reads each format back into header cells and rows.
- `Export.Tabulate` and `Export.Serialize` run the whole pipeline. They return an error
  when there are no results or the baseline's mean is zero.
- `Snapshots` evaluates the four snapshot tests. It derives each test's table of cells,
  including the MeanTime variant, from the test's inputs.
- `SnapshotText` renders each of the twelve snapshot tables and compares the text with
  the one the test expects, line by line.

`Text` (join, split, padding) and `Lists` (map, permutations) are generic helpers.

## Model

| member | source | states |
|---|---|---|
| Export.ResolveUnit | src/export/tests.rs:21-26 | An explicit unit is returned unchanged. With none, milliseconds are chosen exactly when the first result's mean is below one second, whatever the later results are. With no results at all, seconds are chosen. |
| Units.SuitableUnit | src/export/tests.rs:124-125 | Milliseconds exactly for a mean below one second, seconds exactly for one second and above. |
| Export.TimeCell | src/export/tests.rs:86-90 | A time cell shows the time in the unit (`Decimal.Shows`): a decimal number with exactly the unit's number of decimals, no leading zero before the point, and a mantissa nearest to the time in the unit. By `Decimal.ShowsUnique` no other text does. |
| Export.SpreadCell | src/export/tests.rs:88-89 | The standard deviation cell has the unit's decimals and no leading zero, and its mantissa is the rounded square root of the variance in the unit, stated in squares (`Decimal.ShowsRoot`). |
| Decimal.Fixed | src/export/tests.rs:88-90 | The text of a non-negative value to `d` decimals has no leading zero before the point, reads back with `d` decimals, and has a mantissa within one half of `v * 10^d`. |
| Decimal.ParsePointText | src/export/tests.rs:88-90 | Reading a rendered mantissa back gives that mantissa and the number of decimals it was written with. |
| Decimal.FixedOf | src/export/tests.rs:88-90 | Any mantissa within one half of `v * 10^d` is the one `Fixed` writes. |
| Decimal.RatioText | src/export/tests.rs:89-90 | A ratio is shown to two decimals (`Shows(s, 2, v)`): no leading zero, and the mantissa nearest to `v * 100`, as in `1.00` and `27.27`. By `ShowsUnique` no other text does. |
| Decimal.SqrtFixed | src/export/tests.rs:88 | The square-root text has no leading zero, reads back with `d` decimals, and its mantissa brackets the square root of the scaled value. |
| Decimal.SqrtFixedOf | src/export/tests.rs:88 | Any mantissa that brackets the square root is the one `SqrtFixed` writes. |
| Decimal.NatText | src/export/tests.rs:88-90 | The decimal digits of a natural number. The first digit is `0` exactly for zero, and there is one digit exactly below ten. |
| Decimal.PointText | src/export/tests.rs:88-90 | A mantissa written with a point is digits and one point, with no leading zero unless the point follows it, as in `0.100`. |
| Decimal.CanonicalUnique | src/export/tests.rs:88-90 | Two number texts without leading zeros that read back to the same mantissa and decimals are the same text. |
| Decimal.ShowsUnique | src/export/tests.rs:88-90 | At most one text shows a value to `d` decimals, so `Fixed`'s contract fixes its text completely. |
| Decimal.ShowsRootUnique | src/export/tests.rs:88 | At most one text shows a square root to `d` decimals, so `SqrtFixed`'s contract fixes its text completely. |
| Roots.RoundSqrt | src/export/tests.rs:88 | The result is the nearest integer to the square root of a non-negative real, stated as `(n - 1/2)^2 <= x < (n + 1/2)^2`. |
| Roots.RootBracketUnique | src/export/tests.rs:88 | At most one integer lies in that bracket for a given value. |
| Roots.ISqrt | src/export/tests.rs:88 | The integer square root: `r*r <= k < (r+1)*(r+1)`. |
| RelativeSpeed.Fastest | src/export/tests.rs:188-189 | Returns the first index holding the smallest mean: no mean is smaller, and every earlier mean is larger. |
| RelativeSpeed.FirstMinimumUnique | src/export/tests.rs:188-189 | Only one index is the first smallest mean. |
| RelativeSpeed.EntryFor | src/export/tests.rs:90 | The ratio times the baseline mean is the result's mean. The ratio is at least one and its variance is non-negative. |
| RelativeSpeed.Entries | src/export/tests.rs:89-90 | Given the first fastest index `b` with a positive mean, there is one entry per result, in input order. Entry `i` holds result `i`, only entry `b` is flagged, and every ratio times the baseline mean is the result's mean (`RelativeTo`). |
| RelativeSpeed.Compute | src/export/tests.rs:89-90 | There are no entries exactly when there are no results or the fastest mean is zero. Otherwise there is one entry per result, in input order, against the fastest result. Only that result is flagged, and every ratio times the fastest mean is the result's mean. |
| RelativeSpeed.OneFastest | src/export/tests.rs:89-90 | Exactly one entry is flagged as fastest, the baseline's, and its ratio is exactly one. |
| RelativeSpeed.ZeroFastestIffSomeZero | src/export/tests.rs:12-19 | The fastest mean is zero exactly when some mean is zero. So a zero mean anywhere is the one case with no ratios and no table. |
| Export.RelativeCell | src/export/tests.rs:89-90 | For the baseline the cell is the ratio to two decimals, which is `1.00` for a ratio of one. For every other entry it splits at ` ± ` into the ratio to two decimals and the rounded square root of the ratio's variance to two decimals. The cell is plain text and differs from `1.00` off the baseline. |
| Export.SplitUncertainJoin | src/export/tests.rs:88-90 | Splitting `a ± b` at the `±` gives back `a` and `b` when neither holds a `±`. |
| Export.SplitUncertainInverse | src/export/tests.rs:88-90 | A cell that splits is exactly its two halves joined by ` ± `. |
| Export.BaselineCell | src/export/tests.rs:89 | A ratio alone is plain text and is `1.00` when the ratio is exactly one. |
| Export.RatioOne | src/export/tests.rs:89 | A ratio of exactly one is written `1.00`. |
| Export.UncertainCell | src/export/tests.rs:88-90 | A value with its uncertainty is a plain cell holding `±`, so it is never the bare `1.00`. |
| Export.RowOfCells | src/export/tests.rs:86-90 | A row keeps the bare command (`DescribesRow`). The mean cell splits at ` ± ` into the mean and the rounded standard deviation, both in the unit. Min and Max are bare times in the unit. The Relative cell is as `RelativeCell` states. Every cell is plain, and exactly the non-baseline rows hold `±`. |
| Export.RowDetermined | src/export/tests.rs:86-90 | Any row that `DescribesRow` accepts for an entry is the row `RowOf` builds. The description leaves no choice. |
| Export.RowOf | src/export/tests.rs:89-90 | The row of one entry in a unit. Its contract is stated by `RowOfCells`: the bare command, mean ± spread, Min and Max in the unit, and the Relative cell. `RowDetermined` shows that description admits no other row. |
| Export.Rows | src/export/tests.rs:86-90 | One row per entry, in the entries' order, each row built from its own entry. |
| Export.Tabulate | src/export/tests.rs:12-19 | No results gives `NoResults`. A zero fastest mean gives `UndefinedRatio`. Otherwise the table uses the resolved unit and has exactly one row per result. |
| Export.Serialize | src/export/tests.rs:12-19 | The text fails exactly when the table fails, and with the same error. |
| Export.TabulateOk | src/export/tests.rs:12-19 | A table exists, in either order, exactly when there are results and every mean is positive. |
| Export.SerializeDecodes | src/export/tests.rs:20-23 | For results with positive means and commands free of vertical bars and line breaks, the written table decodes to exactly the unit's header cells and the rows. The text holds nothing but the table. |
| Export.CommandOrderRows | src/export/tests.rs:382-387 | When every mean is positive, a command-order table exists. Row `i` is `RowOf` of the `i`-th result's entry, so its cells are those `DescribesRow` gives for that result. It shows `1.00` exactly when it is the fastest result. |
| Export.OrdersAgree | src/export/tests.rs:382-394 | When every mean is positive, both orders give a table, with the same unit and the same multiset of rows, cell for cell. |
| Export.MeanTimeBaselineFirst | src/export/tests.rs:389-394 | When every mean is positive, a mean-time table exists, the fastest result's row comes first, and it alone shows `1.00`. |
| Export.MeanTimeRows | src/export/tests.rs:389-394 | When every mean is positive, the mean-time rows are `RowOf` of the entries sorted by ascending mean. That list is a permutation of the command-order entries, and entries with equal means keep their input order. |
| Export.SortedFastestFirst | src/export/tests.rs:389-394 | Sorting the entries by mean puts the baseline first and nowhere else. |
| Export.SortedHeadIsFastest | src/export/tests.rs:389-394 | The baseline heads the sorted entries. Equal means that come later do not overtake it, because the sort is stable. |
| Sorting.Arrange | src/export/tests.rs:382-394 | The result is a permutation of the entries. Command order is the identity, and mean-time order is sorted by ascending mean. |
| Sorting.SortByMean | src/export/tests.rs:389-394 | The output is sorted by mean and is a permutation of the input. |
| Sorting.SortByMeanStable | src/export/tests.rs:389-394 | For every mean, the entries with that mean keep their relative order. |
| Sorting.Insert | src/export/tests.rs:389-394 | Inserting into a sorted list keeps it sorted and adds exactly that entry. |
| Sorting.InsertWithMean | src/export/tests.rs:389-394 | An insertion places the new entry before the entries with its own mean and after none of them. It leaves every other mean's entries as they were. |
| Markup.Render | src/export/tests.rs:86-121 | The text each exporter writes: the table's lines, each ended by a newline. Its contract is stated by `DecodeRender`: in every format the text reads back to the unit's header and the rows. The `SnapshotText` lemmas show it writes each snapshot text literally. |
| Markup.Lines | src/export/tests.rs:86-121 | The lines of a table under the unit's header. Its contract is stated by `TwoRowDelimited`: a two-row Markdown or Org-mode table is the header line, the divider and one line per row. `TwoRowAsciidocLines` lists the twenty Asciidoc lines. |
| Markup.Layout | src/export/tests.rs:93-114 | The lines for any header. Its contract is stated by `DecodeLinesAsciidoc` and `DecodeLinesDelimited`: no line holds a line break, and the lines read back to the header and rows. Asciidoc lines open with the column specification (`AsciidocColumns`) and the delimiter line, and close with the delimiter line. |
| Markup.HeaderCells | src/export/tests.rs:87 | Five labels, none holding a vertical bar or a line break, so every format can carry them. `SnapshotText` spells them out for both units. |
| Markup.HeaderNamesUnit | src/export/tests.rs:87 | Two units give the same header exactly when they are the same unit, so the header tells the unit, as in `Mean [ms]` and `Mean [s]`. |
| Markup.CommandCell | src/export/tests.rs:89-90 | The command cell reads back to the bare command once its marks come off: backticks in Markdown and Asciidoc, `=` in Org-mode. |
| Markup.CellLine | src/export/tests.rs:87-90 | A delimited line of cells. Its contract is stated by `DecodeCellLineRoundTrip`: a line of plain cells splits on its bars and unpads back to its cells. `MarkdownCells` and `OrgmodeCells` give each format's padding. |
| Markup.Divider | src/export/tests.rs:88 | The line under the header. The `SnapshotText` lemmas compare it with the snapshot lines: Markdown aligns the command column left and the four number columns right, and Org-mode draws a rule across the five columns. The decoder takes a Markdown or Org-mode table only with this line second, and `DecodeLinesDelimited` reads such tables back. |
| Markup.CellBlock | src/export/tests.rs:96-100 | The Asciidoc cell lines. Its contract is stated by `FiveCellBlock`: five cells give five lines, each a bar and a space, the cell and a space. `DecodeBodyRoundTrip` reads the blocks back to their rows. |
| Markup.DecodeRender | src/export/tests.rs:86-121 | In each of the three formats, a rendered table of plain cells decodes to exactly the unit's header cells and the rows. |
| Markup.DecodeCellLineRoundTrip | src/export/tests.rs:86-91 | A Markdown or Org-mode cell line splits on its vertical bars and unpads back to its cells. |
| Markup.DecodeRowRoundTrip | src/export/tests.rs:88-90 | A body row's cells read back to the row, with the command's backticks or `=` markers removed. |
| Markup.DecodeBodyRoundTrip | src/export/tests.rs:93-114 | The body lines of any format, including the blank-line-separated Asciidoc blocks, read back to the rows. |
| Markup.DecodeLinesAsciidoc | src/export/tests.rs:93-114 | An Asciidoc table has no line breaks inside its lines. It decodes to its header cells and rows between the column specification and the two delimiter lines. |
| Markup.DecodeLinesDelimited | src/export/tests.rs:116-121 | A Markdown or Org-mode table has no line breaks inside its lines, and it decodes to its header cells and rows. |
| Markup.BodyLinesFree | src/export/tests.rs:93-114 | No body line contains a line break when no cell does. |
| Markup.FiveCellLine | src/export/tests.rs:86-91 | A five-cell Markdown or Org-mode line is its five padded pieces, each after a bar, with a closing bar. |
| Markup.MarkdownCells | src/export/tests.rs:86-91 | A five-cell Markdown line is `|`, then each cell between single spaces followed by `|`. |
| Markup.OrgmodeCells | src/export/tests.rs:116-121 | A five-cell Org-mode line pads the first cell with one space before and two after, and every other cell with two before and one after. |
| Markup.FiveCellBlock | src/export/tests.rs:93-114 | An Asciidoc block of five cells is five lines, each `| `, the cell and a space. |
| Markup.TwoRowDelimited | src/export/tests.rs:86-91 | A two-row Markdown or Org-mode table is four lines: the header line, the divider and one line per row. |
| Markup.TwoRowAsciidocLines | src/export/tests.rs:93-114 | A two-row Asciidoc table is twenty lines: the column specification, the delimiter, five header lines, then a blank line and five cell lines per row, and the closing delimiter. |
| Snapshots.TableOfTwo | src/export/tests.rs:382-394 | Two results with positive means give a table in the resolved unit holding their rows against the faster one (the first on a tie). The rows are swapped only when sorting by mean and the second result is strictly faster. |
| Snapshots.SummarizesThree | src/export/tests.rs:29-84 | A result whose statistics equal those of three run times summarizes them. |
| Snapshots.AutoMsRuns | src/export/tests.rs:29-84 | The two results of the first test are the statistics of the run times 0.09, 0.10, 0.14 s and 2, 3, 4 s. |
| Snapshots.AutoMsTable | src/export/tests.rs:86-91 | No unit given: milliseconds. Rows `sleep 0.1`: `110.0 ± 26.5`, `90.0`, `140.0`, `1.00`, and `sleep 2`: `3000.0 ± 1000.0`, `2000.0`, `4000.0`, `27.27 ± 11.21`. |
| Snapshots.AutoSRuns | src/export/tests.rs:128-183 | The results are the statistics of 2.1, 2.2, 2.3 s and 0.1, 0.2, 0.3 s. |
| Snapshots.AutoSTable | src/export/tests.rs:185-190 | No unit given: seconds. Rows `sleep 2`: `2.200 ± 0.100`, `2.100`, `2.300`, `11.00 ± 5.52`, and `sleep 0.1`: `0.200 ± 0.100`, `0.100`, `0.300`, `1.00`. |
| Snapshots.ManualMsTable | src/export/tests.rs:284-289 | Milliseconds requested: `2200.0 ± 100.0`, `2100.0`, `2300.0`, `11.00 ± 5.52` and `200.0 ± 100.0`, `100.0`, `300.0`, `1.00`. |
| Snapshots.ManualSRuns | src/export/tests.rs:325-380 | The results are the statistics of 2.01, 2.02, 2.03 s and 0.11, 0.12, 0.13 s. |
| Snapshots.ManualSTable | src/export/tests.rs:382-387 | Seconds requested, command order: `sleep 2`: `2.020 ± 0.010`, `2.010`, `2.030`, `16.83 ± 1.41` first, then `sleep 0.1`: `0.120 ± 0.010`, `0.110`, `0.130`, `1.00`. |
| Snapshots.ManualSMeanTimeTable | src/export/tests.rs:389-394 | Seconds requested, mean-time order: the same two rows, with `sleep 0.1` first. |
| SnapshotText.AutoMsMarkdown | src/export/tests.rs:86-91 | Markdown, no unit given: `Serialize` writes exactly the snapshot's lines, literally, each ended by a newline. |
| SnapshotText.AutoMsAsciidoc | src/export/tests.rs:93-114 | Asciidoc, no unit given: `Serialize` writes exactly the snapshot's lines, literally, each ended by a newline. |
| SnapshotText.AutoMsOrg | src/export/tests.rs:116-121 | Org-mode, no unit given: `Serialize` writes exactly the snapshot's lines, literally, each ended by a newline. |
| SnapshotText.AutoSMarkdown | src/export/tests.rs:185-190 | Markdown, no unit given: `Serialize` writes exactly the snapshot's lines, literally, each ended by a newline. |
| SnapshotText.AutoSAsciidoc | src/export/tests.rs:192-213 | Asciidoc, no unit given: `Serialize` writes exactly the snapshot's lines, literally, each ended by a newline. |
| SnapshotText.AutoSOrg | src/export/tests.rs:215-220 | Org-mode, no unit given: `Serialize` writes exactly the snapshot's lines, literally, each ended by a newline. |
| SnapshotText.ManualMsMarkdown | src/export/tests.rs:284-289 | Markdown, milliseconds requested: `Serialize` writes exactly the snapshot's lines, literally, each ended by a newline. |
| SnapshotText.ManualMsAsciidoc | src/export/tests.rs:291-312 | Asciidoc, milliseconds requested: `Serialize` writes exactly the snapshot's lines, literally, each ended by a newline. |
| SnapshotText.ManualMsOrg | src/export/tests.rs:314-319 | Org-mode, milliseconds requested: `Serialize` writes exactly the snapshot's lines, literally, each ended by a newline. |
| SnapshotText.ManualSMarkdown | src/export/tests.rs:382-387 | Markdown, seconds requested, command order: `Serialize` writes exactly the snapshot's lines, literally, each ended by a newline. |
| SnapshotText.ManualSMeanTimeMarkdown | src/export/tests.rs:389-394 | Markdown, seconds requested, mean-time order: `Serialize` writes exactly the snapshot's lines, literally, each ended by a newline. |
| SnapshotText.ManualSAsciidoc | src/export/tests.rs:396-417 | Asciidoc, seconds requested, command order: `Serialize` writes exactly the snapshot's lines, literally, each ended by a newline. |

## Left out

- Snapshot normalisation. The snapshot tool removes the indentation of an inline snapshot
  and compares without the final newline. `SnapshotText` states each expected text as its
  lines with a newline after every line, the last one included, which is what `Render`
  writes. The normalisation itself is not modelled.
- Statistics aggregation. Results carry their summary statistics. `Benchmark.Summarizes`
  relates them to run times, but there is no function computing them from a measurement list.
- Single-run results. Every result in the model carries a variance, and `Summarizes` asks
  for at least two runs, so results of a single run are not modelled.
- Floating point. All quantities are exact reals, and `Decimal.Round` rounds an exact tie
  half up. Rust's `f64` formatting rounds the binary value instead. That value can lie on
  either side of a decimal half-way point. When it is exactly a tie, as 1.125 is, Rust
  rounds half to even and writes `1.12` where the model writes `1.13`. No snapshot value
  is a half-way case.
- Decimals per unit: three for seconds, one for milliseconds. A magnitude rule (three
  decimals below 10, one from 10 up) gives the same text for every snapshot value. The
  snapshots do not tell the two apart, and the model follows the per-unit rule. The unit
  formatting code, `src/util/units.rs`, is not part of this model.
- The exporter sources (`src/export/markdown.rs`, `asciidoc.rs`, `orgmode.rs`, the relative
  speed and unit code) are not part of this model. Their behaviour is taken from the
  snapshots.
- Escaping. The decoding lemmas assume commands without `|` or line breaks. No snapshot
  shows how such a command would be escaped.
- Other units (microseconds) and the exporters' other outputs (JSON, CSV) are not covered
  by these tests.
- Unused measurement fields: user and system time, peak memory, exit status and
  parameters. The tables never show them.
- Test plumbing and I/O: `get_output`'s UTF-8 conversion and `unwrap`, the snapshot
  machinery, and writing the bytes anywhere. `Serialize` returns the text as a string.
- Error variants. The exporter's error type is not visible. `NoResults` and
  `UndefinedRatio` stand for the two cases where no table can be produced.
