/** The exporters' snapshot texts, line for line. Each table of the snapshot tests is
    rendered and compared with the text the test expects: every line is assembled from
    its cells by the format's line grammar, and the literal line is then spelled out
    a few pieces at a time, so that no single step compares long strings. */
module SnapshotText {
  import opened Wrappers
  import opened Text
  import opened Units
  import opened Sorting
  import opened Markup
  import opened Export
  import opened Snapshots

  // The snapshots: what `Serialize` writes for each table of the tests.

  /** The Markdown table of test_markup_export_auto_ms, in input order: the expected lines, each ended by a newline. */
  lemma AutoMsMarkdown()
    ensures Serialize(Markdown, AutoMsResults(), None, Command)
         == Ok(Unlines([
              "| Command | Mean [ms] | Min [ms] | Max [ms] | Relative |",
              "|:---|---:|---:|---:|---:|",
              "| `sleep 0.1` | 110.0 ± 26.5 | 90.0 | 140.0 | 1.00 |",
              "| `sleep 2` | 3000.0 ± 1000.0 | 2000.0 | 4000.0 | 27.27 ± 11.21 |"]))
  {
    AutoMsTable();
    AutoMsMarkdownLines();
  }

  lemma AutoMsMarkdownLines()
    ensures Lines(Markdown, MilliSecond, [Row("sleep 0.1", "110.0" + PlusMinus + "26.5", "90.0", "140.0", "1.00"),
                    Row("sleep 2", "3000.0" + PlusMinus + "1000.0", "2000.0", "4000.0", "27.27" + PlusMinus + "11.21")])
         == [
              "| Command | Mean [ms] | Min [ms] | Max [ms] | Relative |",
              "|:---|---:|---:|---:|---:|",
              "| `sleep 0.1` | 110.0 ± 26.5 | 90.0 | 140.0 | 1.00 |",
              "| `sleep 2` | 3000.0 ± 1000.0 | 2000.0 | 4000.0 | 27.27 ± 11.21 |"]
  {
    var first := Row("sleep 0.1", "110.0" + PlusMinus + "26.5", "90.0", "140.0", "1.00");
    var second := Row("sleep 2", "3000.0" + PlusMinus + "1000.0", "2000.0", "4000.0", "27.27" + PlusMinus + "11.21");
    TwoRowDelimited(Markdown, MilliSecond, first, second);
    assert Divider(Markdown) == "|:---|---:|---:|---:|---:|";
    MsMarkdownHeader();
    AutoMsFirstMarkdownRow();
    AutoMsSecondMarkdownRow();
  }

  /** The Asciidoc table of test_markup_export_auto_ms, in input order: the expected lines, each ended by a newline. */
  lemma AutoMsAsciidoc()
    ensures Serialize(Asciidoc, AutoMsResults(), None, Command)
         == Ok(Unlines([
              "[cols=\"<,>,>,>,>\"]",
              "|===",
              "| Command ",
              "| Mean [ms] ",
              "| Min [ms] ",
              "| Max [ms] ",
              "| Relative ",
              "",
              "| `sleep 0.1` ",
              "| 110.0 ± 26.5 ",
              "| 90.0 ",
              "| 140.0 ",
              "| 1.00 ",
              "",
              "| `sleep 2` ",
              "| 3000.0 ± 1000.0 ",
              "| 2000.0 ",
              "| 4000.0 ",
              "| 27.27 ± 11.21 ",
              "|==="]))
  {
    AutoMsTable();
    AutoMsAsciidocLines();
  }

  lemma AutoMsAsciidocLines()
    ensures Lines(Asciidoc, MilliSecond, [Row("sleep 0.1", "110.0" + PlusMinus + "26.5", "90.0", "140.0", "1.00"),
                    Row("sleep 2", "3000.0" + PlusMinus + "1000.0", "2000.0", "4000.0", "27.27" + PlusMinus + "11.21")])
         == [
              "[cols=\"<,>,>,>,>\"]",
              "|===",
              "| Command ",
              "| Mean [ms] ",
              "| Min [ms] ",
              "| Max [ms] ",
              "| Relative ",
              "",
              "| `sleep 0.1` ",
              "| 110.0 ± 26.5 ",
              "| 90.0 ",
              "| 140.0 ",
              "| 1.00 ",
              "",
              "| `sleep 2` ",
              "| 3000.0 ± 1000.0 ",
              "| 2000.0 ",
              "| 4000.0 ",
              "| 27.27 ± 11.21 ",
              "|==="]
  {
    var first := Row("sleep 0.1", "110.0" + PlusMinus + "26.5", "90.0", "140.0", "1.00");
    var second := Row("sleep 2", "3000.0" + PlusMinus + "1000.0", "2000.0", "4000.0", "27.27" + PlusMinus + "11.21");
    TwoRowAsciidocLines(MilliSecond, first, second);
    MsAsciidocHeader();
    AutoMsFirstAsciidocRow();
    AutoMsSecondAsciidocRow();
  }

  /** The org-mode table of test_markup_export_auto_ms, in input order: the expected lines, each ended by a newline. */
  lemma AutoMsOrg()
    ensures Serialize(Orgmode, AutoMsResults(), None, Command)
         == Ok(Unlines([
              "| Command  |  Mean [ms] |  Min [ms] |  Max [ms] |  Relative |",
              "|--+--+--+--+--|",
              "| =sleep 0.1=  |  110.0 ± 26.5 |  90.0 |  140.0 |  1.00 |",
              "| =sleep 2=  |  3000.0 ± 1000.0 |  2000.0 |  4000.0 |  27.27 ± 11.21 |"]))
  {
    AutoMsTable();
    AutoMsOrgLines();
  }

  lemma AutoMsOrgLines()
    ensures Lines(Orgmode, MilliSecond, [Row("sleep 0.1", "110.0" + PlusMinus + "26.5", "90.0", "140.0", "1.00"),
                    Row("sleep 2", "3000.0" + PlusMinus + "1000.0", "2000.0", "4000.0", "27.27" + PlusMinus + "11.21")])
         == [
              "| Command  |  Mean [ms] |  Min [ms] |  Max [ms] |  Relative |",
              "|--+--+--+--+--|",
              "| =sleep 0.1=  |  110.0 ± 26.5 |  90.0 |  140.0 |  1.00 |",
              "| =sleep 2=  |  3000.0 ± 1000.0 |  2000.0 |  4000.0 |  27.27 ± 11.21 |"]
  {
    var first := Row("sleep 0.1", "110.0" + PlusMinus + "26.5", "90.0", "140.0", "1.00");
    var second := Row("sleep 2", "3000.0" + PlusMinus + "1000.0", "2000.0", "4000.0", "27.27" + PlusMinus + "11.21");
    TwoRowDelimited(Orgmode, MilliSecond, first, second);
    assert Divider(Orgmode) == "|--+--+--+--+--|";
    MsOrgHeader();
    AutoMsFirstOrgRow();
    AutoMsSecondOrgRow();
  }

  /** The Markdown table of test_markup_export_auto_s, in input order: the expected lines, each ended by a newline. */
  lemma AutoSMarkdown()
    ensures Serialize(Markdown, AutoSResults(), None, Command)
         == Ok(Unlines([
              "| Command | Mean [s] | Min [s] | Max [s] | Relative |",
              "|:---|---:|---:|---:|---:|",
              "| `sleep 2` | 2.200 ± 0.100 | 2.100 | 2.300 | 11.00 ± 5.52 |",
              "| `sleep 0.1` | 0.200 ± 0.100 | 0.100 | 0.300 | 1.00 |"]))
  {
    AutoSTable();
    AutoSMarkdownLines();
  }

  lemma AutoSMarkdownLines()
    ensures Lines(Markdown, Second, [Row("sleep 2", "2.200" + PlusMinus + "0.100", "2.100", "2.300", "11.00" + PlusMinus + "5.52"),
                    Row("sleep 0.1", "0.200" + PlusMinus + "0.100", "0.100", "0.300", "1.00")])
         == [
              "| Command | Mean [s] | Min [s] | Max [s] | Relative |",
              "|:---|---:|---:|---:|---:|",
              "| `sleep 2` | 2.200 ± 0.100 | 2.100 | 2.300 | 11.00 ± 5.52 |",
              "| `sleep 0.1` | 0.200 ± 0.100 | 0.100 | 0.300 | 1.00 |"]
  {
    var first := Row("sleep 2", "2.200" + PlusMinus + "0.100", "2.100", "2.300", "11.00" + PlusMinus + "5.52");
    var second := Row("sleep 0.1", "0.200" + PlusMinus + "0.100", "0.100", "0.300", "1.00");
    TwoRowDelimited(Markdown, Second, first, second);
    assert Divider(Markdown) == "|:---|---:|---:|---:|---:|";
    SMarkdownHeader();
    AutoSFirstMarkdownRow();
    AutoSSecondMarkdownRow();
  }

  /** The Asciidoc table of test_markup_export_auto_s, in input order: the expected lines, each ended by a newline. */
  lemma AutoSAsciidoc()
    ensures Serialize(Asciidoc, AutoSResults(), None, Command)
         == Ok(Unlines([
              "[cols=\"<,>,>,>,>\"]",
              "|===",
              "| Command ",
              "| Mean [s] ",
              "| Min [s] ",
              "| Max [s] ",
              "| Relative ",
              "",
              "| `sleep 2` ",
              "| 2.200 ± 0.100 ",
              "| 2.100 ",
              "| 2.300 ",
              "| 11.00 ± 5.52 ",
              "",
              "| `sleep 0.1` ",
              "| 0.200 ± 0.100 ",
              "| 0.100 ",
              "| 0.300 ",
              "| 1.00 ",
              "|==="]))
  {
    AutoSTable();
    AutoSAsciidocLines();
  }

  lemma AutoSAsciidocLines()
    ensures Lines(Asciidoc, Second, [Row("sleep 2", "2.200" + PlusMinus + "0.100", "2.100", "2.300", "11.00" + PlusMinus + "5.52"),
                    Row("sleep 0.1", "0.200" + PlusMinus + "0.100", "0.100", "0.300", "1.00")])
         == [
              "[cols=\"<,>,>,>,>\"]",
              "|===",
              "| Command ",
              "| Mean [s] ",
              "| Min [s] ",
              "| Max [s] ",
              "| Relative ",
              "",
              "| `sleep 2` ",
              "| 2.200 ± 0.100 ",
              "| 2.100 ",
              "| 2.300 ",
              "| 11.00 ± 5.52 ",
              "",
              "| `sleep 0.1` ",
              "| 0.200 ± 0.100 ",
              "| 0.100 ",
              "| 0.300 ",
              "| 1.00 ",
              "|==="]
  {
    var first := Row("sleep 2", "2.200" + PlusMinus + "0.100", "2.100", "2.300", "11.00" + PlusMinus + "5.52");
    var second := Row("sleep 0.1", "0.200" + PlusMinus + "0.100", "0.100", "0.300", "1.00");
    TwoRowAsciidocLines(Second, first, second);
    SAsciidocHeader();
    AutoSFirstAsciidocRow();
    AutoSSecondAsciidocRow();
  }

  /** The org-mode table of test_markup_export_auto_s, in input order: the expected lines, each ended by a newline. */
  lemma AutoSOrg()
    ensures Serialize(Orgmode, AutoSResults(), None, Command)
         == Ok(Unlines([
              "| Command  |  Mean [s] |  Min [s] |  Max [s] |  Relative |",
              "|--+--+--+--+--|",
              "| =sleep 2=  |  2.200 ± 0.100 |  2.100 |  2.300 |  11.00 ± 5.52 |",
              "| =sleep 0.1=  |  0.200 ± 0.100 |  0.100 |  0.300 |  1.00 |"]))
  {
    AutoSTable();
    AutoSOrgLines();
  }

  lemma AutoSOrgLines()
    ensures Lines(Orgmode, Second, [Row("sleep 2", "2.200" + PlusMinus + "0.100", "2.100", "2.300", "11.00" + PlusMinus + "5.52"),
                    Row("sleep 0.1", "0.200" + PlusMinus + "0.100", "0.100", "0.300", "1.00")])
         == [
              "| Command  |  Mean [s] |  Min [s] |  Max [s] |  Relative |",
              "|--+--+--+--+--|",
              "| =sleep 2=  |  2.200 ± 0.100 |  2.100 |  2.300 |  11.00 ± 5.52 |",
              "| =sleep 0.1=  |  0.200 ± 0.100 |  0.100 |  0.300 |  1.00 |"]
  {
    var first := Row("sleep 2", "2.200" + PlusMinus + "0.100", "2.100", "2.300", "11.00" + PlusMinus + "5.52");
    var second := Row("sleep 0.1", "0.200" + PlusMinus + "0.100", "0.100", "0.300", "1.00");
    TwoRowDelimited(Orgmode, Second, first, second);
    assert Divider(Orgmode) == "|--+--+--+--+--|";
    SOrgHeader();
    AutoSFirstOrgRow();
    AutoSSecondOrgRow();
  }

  /** The Markdown table of test_markup_export_manual_ms, in input order: the expected lines, each ended by a newline. */
  lemma ManualMsMarkdown()
    ensures Serialize(Markdown, AutoSResults(), Some(MilliSecond), Command)
         == Ok(Unlines([
              "| Command | Mean [ms] | Min [ms] | Max [ms] | Relative |",
              "|:---|---:|---:|---:|---:|",
              "| `sleep 2` | 2200.0 ± 100.0 | 2100.0 | 2300.0 | 11.00 ± 5.52 |",
              "| `sleep 0.1` | 200.0 ± 100.0 | 100.0 | 300.0 | 1.00 |"]))
  {
    ManualMsTable();
    ManualMsMarkdownLines();
  }

  lemma ManualMsMarkdownLines()
    ensures Lines(Markdown, MilliSecond, [Row("sleep 2", "2200.0" + PlusMinus + "100.0", "2100.0", "2300.0", "11.00" + PlusMinus + "5.52"),
                    Row("sleep 0.1", "200.0" + PlusMinus + "100.0", "100.0", "300.0", "1.00")])
         == [
              "| Command | Mean [ms] | Min [ms] | Max [ms] | Relative |",
              "|:---|---:|---:|---:|---:|",
              "| `sleep 2` | 2200.0 ± 100.0 | 2100.0 | 2300.0 | 11.00 ± 5.52 |",
              "| `sleep 0.1` | 200.0 ± 100.0 | 100.0 | 300.0 | 1.00 |"]
  {
    var first := Row("sleep 2", "2200.0" + PlusMinus + "100.0", "2100.0", "2300.0", "11.00" + PlusMinus + "5.52");
    var second := Row("sleep 0.1", "200.0" + PlusMinus + "100.0", "100.0", "300.0", "1.00");
    TwoRowDelimited(Markdown, MilliSecond, first, second);
    assert Divider(Markdown) == "|:---|---:|---:|---:|---:|";
    MsMarkdownHeader();
    ManualMsFirstMarkdownRow();
    ManualMsSecondMarkdownRow();
  }

  /** The Asciidoc table of test_markup_export_manual_ms, in input order: the expected lines, each ended by a newline. */
  lemma ManualMsAsciidoc()
    ensures Serialize(Asciidoc, AutoSResults(), Some(MilliSecond), Command)
         == Ok(Unlines([
              "[cols=\"<,>,>,>,>\"]",
              "|===",
              "| Command ",
              "| Mean [ms] ",
              "| Min [ms] ",
              "| Max [ms] ",
              "| Relative ",
              "",
              "| `sleep 2` ",
              "| 2200.0 ± 100.0 ",
              "| 2100.0 ",
              "| 2300.0 ",
              "| 11.00 ± 5.52 ",
              "",
              "| `sleep 0.1` ",
              "| 200.0 ± 100.0 ",
              "| 100.0 ",
              "| 300.0 ",
              "| 1.00 ",
              "|==="]))
  {
    ManualMsTable();
    ManualMsAsciidocLines();
  }

  lemma ManualMsAsciidocLines()
    ensures Lines(Asciidoc, MilliSecond, [Row("sleep 2", "2200.0" + PlusMinus + "100.0", "2100.0", "2300.0", "11.00" + PlusMinus + "5.52"),
                    Row("sleep 0.1", "200.0" + PlusMinus + "100.0", "100.0", "300.0", "1.00")])
         == [
              "[cols=\"<,>,>,>,>\"]",
              "|===",
              "| Command ",
              "| Mean [ms] ",
              "| Min [ms] ",
              "| Max [ms] ",
              "| Relative ",
              "",
              "| `sleep 2` ",
              "| 2200.0 ± 100.0 ",
              "| 2100.0 ",
              "| 2300.0 ",
              "| 11.00 ± 5.52 ",
              "",
              "| `sleep 0.1` ",
              "| 200.0 ± 100.0 ",
              "| 100.0 ",
              "| 300.0 ",
              "| 1.00 ",
              "|==="]
  {
    var first := Row("sleep 2", "2200.0" + PlusMinus + "100.0", "2100.0", "2300.0", "11.00" + PlusMinus + "5.52");
    var second := Row("sleep 0.1", "200.0" + PlusMinus + "100.0", "100.0", "300.0", "1.00");
    TwoRowAsciidocLines(MilliSecond, first, second);
    MsAsciidocHeader();
    ManualMsFirstAsciidocRow();
    ManualMsSecondAsciidocRow();
  }

  /** The org-mode table of test_markup_export_manual_ms, in input order: the expected lines, each ended by a newline. */
  lemma ManualMsOrg()
    ensures Serialize(Orgmode, AutoSResults(), Some(MilliSecond), Command)
         == Ok(Unlines([
              "| Command  |  Mean [ms] |  Min [ms] |  Max [ms] |  Relative |",
              "|--+--+--+--+--|",
              "| =sleep 2=  |  2200.0 ± 100.0 |  2100.0 |  2300.0 |  11.00 ± 5.52 |",
              "| =sleep 0.1=  |  200.0 ± 100.0 |  100.0 |  300.0 |  1.00 |"]))
  {
    ManualMsTable();
    ManualMsOrgLines();
  }

  lemma ManualMsOrgLines()
    ensures Lines(Orgmode, MilliSecond, [Row("sleep 2", "2200.0" + PlusMinus + "100.0", "2100.0", "2300.0", "11.00" + PlusMinus + "5.52"),
                    Row("sleep 0.1", "200.0" + PlusMinus + "100.0", "100.0", "300.0", "1.00")])
         == [
              "| Command  |  Mean [ms] |  Min [ms] |  Max [ms] |  Relative |",
              "|--+--+--+--+--|",
              "| =sleep 2=  |  2200.0 ± 100.0 |  2100.0 |  2300.0 |  11.00 ± 5.52 |",
              "| =sleep 0.1=  |  200.0 ± 100.0 |  100.0 |  300.0 |  1.00 |"]
  {
    var first := Row("sleep 2", "2200.0" + PlusMinus + "100.0", "2100.0", "2300.0", "11.00" + PlusMinus + "5.52");
    var second := Row("sleep 0.1", "200.0" + PlusMinus + "100.0", "100.0", "300.0", "1.00");
    TwoRowDelimited(Orgmode, MilliSecond, first, second);
    assert Divider(Orgmode) == "|--+--+--+--+--|";
    MsOrgHeader();
    ManualMsFirstOrgRow();
    ManualMsSecondOrgRow();
  }

  /** The Markdown table of test_markup_export_manual_s, in input order: the expected lines, each ended by a newline. */
  lemma ManualSMarkdown()
    ensures Serialize(Markdown, ManualSResults(), Some(Second), Command)
         == Ok(Unlines([
              "| Command | Mean [s] | Min [s] | Max [s] | Relative |",
              "|:---|---:|---:|---:|---:|",
              "| `sleep 2` | 2.020 ± 0.010 | 2.010 | 2.030 | 16.83 ± 1.41 |",
              "| `sleep 0.1` | 0.120 ± 0.010 | 0.110 | 0.130 | 1.00 |"]))
  {
    ManualSTable();
    ManualSMarkdownLines();
  }

  lemma ManualSMarkdownLines()
    ensures Lines(Markdown, Second, [Row("sleep 2", "2.020" + PlusMinus + "0.010", "2.010", "2.030", "16.83" + PlusMinus + "1.41"),
                    Row("sleep 0.1", "0.120" + PlusMinus + "0.010", "0.110", "0.130", "1.00")])
         == [
              "| Command | Mean [s] | Min [s] | Max [s] | Relative |",
              "|:---|---:|---:|---:|---:|",
              "| `sleep 2` | 2.020 ± 0.010 | 2.010 | 2.030 | 16.83 ± 1.41 |",
              "| `sleep 0.1` | 0.120 ± 0.010 | 0.110 | 0.130 | 1.00 |"]
  {
    var first := Row("sleep 2", "2.020" + PlusMinus + "0.010", "2.010", "2.030", "16.83" + PlusMinus + "1.41");
    var second := Row("sleep 0.1", "0.120" + PlusMinus + "0.010", "0.110", "0.130", "1.00");
    TwoRowDelimited(Markdown, Second, first, second);
    assert Divider(Markdown) == "|:---|---:|---:|---:|---:|";
    SMarkdownHeader();
    ManualSFirstMarkdownRow();
    ManualSSecondMarkdownRow();
  }

  /** The Markdown table of test_markup_export_manual_s, sorted by mean time: the expected lines, each ended by a newline. */
  lemma ManualSMeanTimeMarkdown()
    ensures Serialize(Markdown, ManualSResults(), Some(Second), MeanTime)
         == Ok(Unlines([
              "| Command | Mean [s] | Min [s] | Max [s] | Relative |",
              "|:---|---:|---:|---:|---:|",
              "| `sleep 0.1` | 0.120 ± 0.010 | 0.110 | 0.130 | 1.00 |",
              "| `sleep 2` | 2.020 ± 0.010 | 2.010 | 2.030 | 16.83 ± 1.41 |"]))
  {
    ManualSMeanTimeTable();
    ManualSMeanTimeMarkdownLines();
  }

  lemma ManualSMeanTimeMarkdownLines()
    ensures Lines(Markdown, Second, [Row("sleep 0.1", "0.120" + PlusMinus + "0.010", "0.110", "0.130", "1.00"),
                    Row("sleep 2", "2.020" + PlusMinus + "0.010", "2.010", "2.030", "16.83" + PlusMinus + "1.41")])
         == [
              "| Command | Mean [s] | Min [s] | Max [s] | Relative |",
              "|:---|---:|---:|---:|---:|",
              "| `sleep 0.1` | 0.120 ± 0.010 | 0.110 | 0.130 | 1.00 |",
              "| `sleep 2` | 2.020 ± 0.010 | 2.010 | 2.030 | 16.83 ± 1.41 |"]
  {
    var first := Row("sleep 0.1", "0.120" + PlusMinus + "0.010", "0.110", "0.130", "1.00");
    var second := Row("sleep 2", "2.020" + PlusMinus + "0.010", "2.010", "2.030", "16.83" + PlusMinus + "1.41");
    TwoRowDelimited(Markdown, Second, first, second);
    assert Divider(Markdown) == "|:---|---:|---:|---:|---:|";
    SMarkdownHeader();
    ManualSSecondMarkdownRow();
    ManualSFirstMarkdownRow();
  }

  /** The Asciidoc table of test_markup_export_manual_s, in input order: the expected lines, each ended by a newline. */
  lemma ManualSAsciidoc()
    ensures Serialize(Asciidoc, ManualSResults(), Some(Second), Command)
         == Ok(Unlines([
              "[cols=\"<,>,>,>,>\"]",
              "|===",
              "| Command ",
              "| Mean [s] ",
              "| Min [s] ",
              "| Max [s] ",
              "| Relative ",
              "",
              "| `sleep 2` ",
              "| 2.020 ± 0.010 ",
              "| 2.010 ",
              "| 2.030 ",
              "| 16.83 ± 1.41 ",
              "",
              "| `sleep 0.1` ",
              "| 0.120 ± 0.010 ",
              "| 0.110 ",
              "| 0.130 ",
              "| 1.00 ",
              "|==="]))
  {
    ManualSTable();
    ManualSAsciidocLines();
  }

  lemma ManualSAsciidocLines()
    ensures Lines(Asciidoc, Second, [Row("sleep 2", "2.020" + PlusMinus + "0.010", "2.010", "2.030", "16.83" + PlusMinus + "1.41"),
                    Row("sleep 0.1", "0.120" + PlusMinus + "0.010", "0.110", "0.130", "1.00")])
         == [
              "[cols=\"<,>,>,>,>\"]",
              "|===",
              "| Command ",
              "| Mean [s] ",
              "| Min [s] ",
              "| Max [s] ",
              "| Relative ",
              "",
              "| `sleep 2` ",
              "| 2.020 ± 0.010 ",
              "| 2.010 ",
              "| 2.030 ",
              "| 16.83 ± 1.41 ",
              "",
              "| `sleep 0.1` ",
              "| 0.120 ± 0.010 ",
              "| 0.110 ",
              "| 0.130 ",
              "| 1.00 ",
              "|==="]
  {
    var first := Row("sleep 2", "2.020" + PlusMinus + "0.010", "2.010", "2.030", "16.83" + PlusMinus + "1.41");
    var second := Row("sleep 0.1", "0.120" + PlusMinus + "0.010", "0.110", "0.130", "1.00");
    TwoRowAsciidocLines(Second, first, second);
    SAsciidocHeader();
    ManualSFirstAsciidocRow();
    ManualSSecondAsciidocRow();
  }

  // Header and body lines, per format.

  lemma MsMarkdownHeader()
    ensures CellLine(Markdown, HeaderCells(MilliSecond)) == "| Command | Mean [ms] | Min [ms] | Max [ms] | Relative |"
  {
    MsHeader();
    MsHeaderMarkdownLine();
  }

  lemma AutoMsFirstMarkdownRow()
    ensures CellLine(Markdown, BodyCells(Markdown, Row("sleep 0.1", "110.0" + PlusMinus + "26.5", "90.0", "140.0", "1.00")))
         == "| `sleep 0.1` | 110.0 ± 26.5 | 90.0 | 140.0 | 1.00 |"
  {
    AutoMsFirstCells(Markdown);
    AutoMsFirstMarkdownLine();
  }

  lemma AutoMsSecondMarkdownRow()
    ensures CellLine(Markdown, BodyCells(Markdown, Row("sleep 2", "3000.0" + PlusMinus + "1000.0", "2000.0", "4000.0", "27.27" + PlusMinus + "11.21")))
         == "| `sleep 2` | 3000.0 ± 1000.0 | 2000.0 | 4000.0 | 27.27 ± 11.21 |"
  {
    AutoMsSecondCells(Markdown);
    AutoMsSecondMarkdownLine();
  }

  lemma MsAsciidocHeader()
    ensures CellBlock(HeaderCells(MilliSecond)) == ["| Command ", "| Mean [ms] ", "| Min [ms] ", "| Max [ms] ", "| Relative "]
  {
    MsHeader();
    MsHeaderBlock();
  }

  lemma AutoMsFirstAsciidocRow()
    ensures CellBlock(BodyCells(Asciidoc, Row("sleep 0.1", "110.0" + PlusMinus + "26.5", "90.0", "140.0", "1.00")))
         == ["| `sleep 0.1` ", "| 110.0 ± 26.5 ", "| 90.0 ", "| 140.0 ", "| 1.00 "]
  {
    AutoMsFirstCells(Asciidoc);
    AutoMsFirstBlock();
  }

  lemma AutoMsSecondAsciidocRow()
    ensures CellBlock(BodyCells(Asciidoc, Row("sleep 2", "3000.0" + PlusMinus + "1000.0", "2000.0", "4000.0", "27.27" + PlusMinus + "11.21")))
         == ["| `sleep 2` ", "| 3000.0 ± 1000.0 ", "| 2000.0 ", "| 4000.0 ", "| 27.27 ± 11.21 "]
  {
    AutoMsSecondCells(Asciidoc);
    AutoMsSecondBlock();
  }

  lemma MsOrgHeader()
    ensures CellLine(Orgmode, HeaderCells(MilliSecond)) == "| Command  |  Mean [ms] |  Min [ms] |  Max [ms] |  Relative |"
  {
    MsHeader();
    MsHeaderOrgLine();
  }

  lemma AutoMsFirstOrgRow()
    ensures CellLine(Orgmode, BodyCells(Orgmode, Row("sleep 0.1", "110.0" + PlusMinus + "26.5", "90.0", "140.0", "1.00")))
         == "| =sleep 0.1=  |  110.0 ± 26.5 |  90.0 |  140.0 |  1.00 |"
  {
    AutoMsFirstCells(Orgmode);
    AutoMsFirstOrgLine();
  }

  lemma AutoMsSecondOrgRow()
    ensures CellLine(Orgmode, BodyCells(Orgmode, Row("sleep 2", "3000.0" + PlusMinus + "1000.0", "2000.0", "4000.0", "27.27" + PlusMinus + "11.21")))
         == "| =sleep 2=  |  3000.0 ± 1000.0 |  2000.0 |  4000.0 |  27.27 ± 11.21 |"
  {
    AutoMsSecondCells(Orgmode);
    AutoMsSecondOrgLine();
  }

  lemma SMarkdownHeader()
    ensures CellLine(Markdown, HeaderCells(Second)) == "| Command | Mean [s] | Min [s] | Max [s] | Relative |"
  {
    SHeader();
    SHeaderMarkdownLine();
  }

  lemma AutoSFirstMarkdownRow()
    ensures CellLine(Markdown, BodyCells(Markdown, Row("sleep 2", "2.200" + PlusMinus + "0.100", "2.100", "2.300", "11.00" + PlusMinus + "5.52")))
         == "| `sleep 2` | 2.200 ± 0.100 | 2.100 | 2.300 | 11.00 ± 5.52 |"
  {
    AutoSFirstCells(Markdown);
    AutoSFirstMarkdownLine();
  }

  lemma AutoSSecondMarkdownRow()
    ensures CellLine(Markdown, BodyCells(Markdown, Row("sleep 0.1", "0.200" + PlusMinus + "0.100", "0.100", "0.300", "1.00")))
         == "| `sleep 0.1` | 0.200 ± 0.100 | 0.100 | 0.300 | 1.00 |"
  {
    AutoSSecondCells(Markdown);
    AutoSSecondMarkdownLine();
  }

  lemma SAsciidocHeader()
    ensures CellBlock(HeaderCells(Second)) == ["| Command ", "| Mean [s] ", "| Min [s] ", "| Max [s] ", "| Relative "]
  {
    SHeader();
    SHeaderBlock();
  }

  lemma AutoSFirstAsciidocRow()
    ensures CellBlock(BodyCells(Asciidoc, Row("sleep 2", "2.200" + PlusMinus + "0.100", "2.100", "2.300", "11.00" + PlusMinus + "5.52")))
         == ["| `sleep 2` ", "| 2.200 ± 0.100 ", "| 2.100 ", "| 2.300 ", "| 11.00 ± 5.52 "]
  {
    AutoSFirstCells(Asciidoc);
    AutoSFirstBlock();
  }

  lemma AutoSSecondAsciidocRow()
    ensures CellBlock(BodyCells(Asciidoc, Row("sleep 0.1", "0.200" + PlusMinus + "0.100", "0.100", "0.300", "1.00")))
         == ["| `sleep 0.1` ", "| 0.200 ± 0.100 ", "| 0.100 ", "| 0.300 ", "| 1.00 "]
  {
    AutoSSecondCells(Asciidoc);
    AutoSSecondBlock();
  }

  lemma SOrgHeader()
    ensures CellLine(Orgmode, HeaderCells(Second)) == "| Command  |  Mean [s] |  Min [s] |  Max [s] |  Relative |"
  {
    SHeader();
    SHeaderOrgLine();
  }

  lemma AutoSFirstOrgRow()
    ensures CellLine(Orgmode, BodyCells(Orgmode, Row("sleep 2", "2.200" + PlusMinus + "0.100", "2.100", "2.300", "11.00" + PlusMinus + "5.52")))
         == "| =sleep 2=  |  2.200 ± 0.100 |  2.100 |  2.300 |  11.00 ± 5.52 |"
  {
    AutoSFirstCells(Orgmode);
    AutoSFirstOrgLine();
  }

  lemma AutoSSecondOrgRow()
    ensures CellLine(Orgmode, BodyCells(Orgmode, Row("sleep 0.1", "0.200" + PlusMinus + "0.100", "0.100", "0.300", "1.00")))
         == "| =sleep 0.1=  |  0.200 ± 0.100 |  0.100 |  0.300 |  1.00 |"
  {
    AutoSSecondCells(Orgmode);
    AutoSSecondOrgLine();
  }

  lemma ManualMsFirstMarkdownRow()
    ensures CellLine(Markdown, BodyCells(Markdown, Row("sleep 2", "2200.0" + PlusMinus + "100.0", "2100.0", "2300.0", "11.00" + PlusMinus + "5.52")))
         == "| `sleep 2` | 2200.0 ± 100.0 | 2100.0 | 2300.0 | 11.00 ± 5.52 |"
  {
    ManualMsFirstCells(Markdown);
    ManualMsFirstMarkdownLine();
  }

  lemma ManualMsSecondMarkdownRow()
    ensures CellLine(Markdown, BodyCells(Markdown, Row("sleep 0.1", "200.0" + PlusMinus + "100.0", "100.0", "300.0", "1.00")))
         == "| `sleep 0.1` | 200.0 ± 100.0 | 100.0 | 300.0 | 1.00 |"
  {
    ManualMsSecondCells(Markdown);
    ManualMsSecondMarkdownLine();
  }

  lemma ManualMsFirstAsciidocRow()
    ensures CellBlock(BodyCells(Asciidoc, Row("sleep 2", "2200.0" + PlusMinus + "100.0", "2100.0", "2300.0", "11.00" + PlusMinus + "5.52")))
         == ["| `sleep 2` ", "| 2200.0 ± 100.0 ", "| 2100.0 ", "| 2300.0 ", "| 11.00 ± 5.52 "]
  {
    ManualMsFirstCells(Asciidoc);
    ManualMsFirstBlock();
  }

  lemma ManualMsSecondAsciidocRow()
    ensures CellBlock(BodyCells(Asciidoc, Row("sleep 0.1", "200.0" + PlusMinus + "100.0", "100.0", "300.0", "1.00")))
         == ["| `sleep 0.1` ", "| 200.0 ± 100.0 ", "| 100.0 ", "| 300.0 ", "| 1.00 "]
  {
    ManualMsSecondCells(Asciidoc);
    ManualMsSecondBlock();
  }

  lemma ManualMsFirstOrgRow()
    ensures CellLine(Orgmode, BodyCells(Orgmode, Row("sleep 2", "2200.0" + PlusMinus + "100.0", "2100.0", "2300.0", "11.00" + PlusMinus + "5.52")))
         == "| =sleep 2=  |  2200.0 ± 100.0 |  2100.0 |  2300.0 |  11.00 ± 5.52 |"
  {
    ManualMsFirstCells(Orgmode);
    ManualMsFirstOrgLine();
  }

  lemma ManualMsSecondOrgRow()
    ensures CellLine(Orgmode, BodyCells(Orgmode, Row("sleep 0.1", "200.0" + PlusMinus + "100.0", "100.0", "300.0", "1.00")))
         == "| =sleep 0.1=  |  200.0 ± 100.0 |  100.0 |  300.0 |  1.00 |"
  {
    ManualMsSecondCells(Orgmode);
    ManualMsSecondOrgLine();
  }

  lemma ManualSFirstMarkdownRow()
    ensures CellLine(Markdown, BodyCells(Markdown, Row("sleep 2", "2.020" + PlusMinus + "0.010", "2.010", "2.030", "16.83" + PlusMinus + "1.41")))
         == "| `sleep 2` | 2.020 ± 0.010 | 2.010 | 2.030 | 16.83 ± 1.41 |"
  {
    ManualSFirstCells(Markdown);
    ManualSFirstMarkdownLine();
  }

  lemma ManualSSecondMarkdownRow()
    ensures CellLine(Markdown, BodyCells(Markdown, Row("sleep 0.1", "0.120" + PlusMinus + "0.010", "0.110", "0.130", "1.00")))
         == "| `sleep 0.1` | 0.120 ± 0.010 | 0.110 | 0.130 | 1.00 |"
  {
    ManualSSecondCells(Markdown);
    ManualSSecondMarkdownLine();
  }

  lemma ManualSFirstAsciidocRow()
    ensures CellBlock(BodyCells(Asciidoc, Row("sleep 2", "2.020" + PlusMinus + "0.010", "2.010", "2.030", "16.83" + PlusMinus + "1.41")))
         == ["| `sleep 2` ", "| 2.020 ± 0.010 ", "| 2.010 ", "| 2.030 ", "| 16.83 ± 1.41 "]
  {
    ManualSFirstCells(Asciidoc);
    ManualSFirstBlock();
  }

  lemma ManualSSecondAsciidocRow()
    ensures CellBlock(BodyCells(Asciidoc, Row("sleep 0.1", "0.120" + PlusMinus + "0.010", "0.110", "0.130", "1.00")))
         == ["| `sleep 0.1` ", "| 0.120 ± 0.010 ", "| 0.110 ", "| 0.130 ", "| 1.00 "]
  {
    ManualSSecondCells(Asciidoc);
    ManualSSecondBlock();
  }

  // Header cells and body cells.

  lemma MsHeader()
    ensures HeaderCells(MilliSecond) == ["Command", "Mean [ms]", "Min [ms]", "Max [ms]", "Relative"]
  {
    assert " [" + "ms" + "]" == " [ms]";
    assert "Mean" + " [ms]" == "Mean [ms]";
    assert "Min" + " [ms]" == "Min [ms]";
    assert "Max" + " [ms]" == "Max [ms]";
  }

  lemma SHeader()
    ensures HeaderCells(Second) == ["Command", "Mean [s]", "Min [s]", "Max [s]", "Relative"]
  {
    assert " [" + "s" + "]" == " [s]";
    assert "Mean" + " [s]" == "Mean [s]";
    assert "Min" + " [s]" == "Min [s]";
    assert "Max" + " [s]" == "Max [s]";
  }

  lemma AutoMsFirstCells(f: Format)
    ensures BodyCells(f, Row("sleep 0.1", "110.0" + PlusMinus + "26.5", "90.0", "140.0", "1.00"))
         == [if f == Orgmode then "=sleep 0.1=" else "`sleep 0.1`", "110.0 ± 26.5", "90.0", "140.0", "1.00"]
  {
    assert CommandCell(f, "sleep 0.1") == if f == Orgmode then "=sleep 0.1=" else "`sleep 0.1`";
    assert "110.0" + PlusMinus + "26.5" == "110.0 ± 26.5";
  }

  lemma AutoMsSecondCells(f: Format)
    ensures BodyCells(f, Row("sleep 2", "3000.0" + PlusMinus + "1000.0", "2000.0", "4000.0", "27.27" + PlusMinus + "11.21"))
         == [if f == Orgmode then "=sleep 2=" else "`sleep 2`", "3000.0 ± 1000.0", "2000.0", "4000.0", "27.27 ± 11.21"]
  {
    assert CommandCell(f, "sleep 2") == if f == Orgmode then "=sleep 2=" else "`sleep 2`";
    assert "3000.0" + PlusMinus + "1000.0" == "3000.0 ± 1000.0";
    assert "27.27" + PlusMinus + "11.21" == "27.27 ± 11.21";
  }

  lemma AutoSFirstCells(f: Format)
    ensures BodyCells(f, Row("sleep 2", "2.200" + PlusMinus + "0.100", "2.100", "2.300", "11.00" + PlusMinus + "5.52"))
         == [if f == Orgmode then "=sleep 2=" else "`sleep 2`", "2.200 ± 0.100", "2.100", "2.300", "11.00 ± 5.52"]
  {
    assert CommandCell(f, "sleep 2") == if f == Orgmode then "=sleep 2=" else "`sleep 2`";
    assert "2.200" + PlusMinus + "0.100" == "2.200 ± 0.100";
    assert "11.00" + PlusMinus + "5.52" == "11.00 ± 5.52";
  }

  lemma AutoSSecondCells(f: Format)
    ensures BodyCells(f, Row("sleep 0.1", "0.200" + PlusMinus + "0.100", "0.100", "0.300", "1.00"))
         == [if f == Orgmode then "=sleep 0.1=" else "`sleep 0.1`", "0.200 ± 0.100", "0.100", "0.300", "1.00"]
  {
    assert CommandCell(f, "sleep 0.1") == if f == Orgmode then "=sleep 0.1=" else "`sleep 0.1`";
    assert "0.200" + PlusMinus + "0.100" == "0.200 ± 0.100";
  }

  lemma ManualMsFirstCells(f: Format)
    ensures BodyCells(f, Row("sleep 2", "2200.0" + PlusMinus + "100.0", "2100.0", "2300.0", "11.00" + PlusMinus + "5.52"))
         == [if f == Orgmode then "=sleep 2=" else "`sleep 2`", "2200.0 ± 100.0", "2100.0", "2300.0", "11.00 ± 5.52"]
  {
    assert CommandCell(f, "sleep 2") == if f == Orgmode then "=sleep 2=" else "`sleep 2`";
    assert "2200.0" + PlusMinus + "100.0" == "2200.0 ± 100.0";
    assert "11.00" + PlusMinus + "5.52" == "11.00 ± 5.52";
  }

  lemma ManualMsSecondCells(f: Format)
    ensures BodyCells(f, Row("sleep 0.1", "200.0" + PlusMinus + "100.0", "100.0", "300.0", "1.00"))
         == [if f == Orgmode then "=sleep 0.1=" else "`sleep 0.1`", "200.0 ± 100.0", "100.0", "300.0", "1.00"]
  {
    assert CommandCell(f, "sleep 0.1") == if f == Orgmode then "=sleep 0.1=" else "`sleep 0.1`";
    assert "200.0" + PlusMinus + "100.0" == "200.0 ± 100.0";
  }

  lemma ManualSFirstCells(f: Format)
    ensures BodyCells(f, Row("sleep 2", "2.020" + PlusMinus + "0.010", "2.010", "2.030", "16.83" + PlusMinus + "1.41"))
         == [if f == Orgmode then "=sleep 2=" else "`sleep 2`", "2.020 ± 0.010", "2.010", "2.030", "16.83 ± 1.41"]
  {
    assert CommandCell(f, "sleep 2") == if f == Orgmode then "=sleep 2=" else "`sleep 2`";
    assert "2.020" + PlusMinus + "0.010" == "2.020 ± 0.010";
    assert "16.83" + PlusMinus + "1.41" == "16.83 ± 1.41";
  }

  lemma ManualSSecondCells(f: Format)
    ensures BodyCells(f, Row("sleep 0.1", "0.120" + PlusMinus + "0.010", "0.110", "0.130", "1.00"))
         == [if f == Orgmode then "=sleep 0.1=" else "`sleep 0.1`", "0.120 ± 0.010", "0.110", "0.130", "1.00"]
  {
    assert CommandCell(f, "sleep 0.1") == if f == Orgmode then "=sleep 0.1=" else "`sleep 0.1`";
    assert "0.120" + PlusMinus + "0.010" == "0.120 ± 0.010";
  }

  // Delimited lines spelled out.

  lemma MsHeaderMarkdownLinePart1()
    ensures "|" + " Command " + "|"
         == "| Command |"
  {
    assert "|" + " Command " == "| Command ";
  }

  lemma MsHeaderMarkdownLinePart2()
    ensures "| Command |" + " Mean [ms] " + "|"
         == "| Command | Mean [ms] |"
  {
    assert "| Command |" + " Mean [ms] " == "| Command | Mean [ms] ";
  }

  lemma MsHeaderMarkdownLinePart3()
    ensures "| Command | Mean [ms] |" + " Min [ms] " + "|"
         == "| Command | Mean [ms] | Min [ms] |"
  {
    assert "| Command | Mean [ms] |" + " Min [ms] " == "| Command | Mean [ms] | Min [ms] ";
  }

  lemma MsHeaderMarkdownLinePart4()
    ensures "| Command | Mean [ms] | Min [ms] |" + " Max [ms] " + "|"
         == "| Command | Mean [ms] | Min [ms] | Max [ms] |"
  {
    assert "| Command | Mean [ms] | Min [ms] |" + " Max [ms] " == "| Command | Mean [ms] | Min [ms] | Max [ms] ";
  }

  lemma MsHeaderMarkdownLinePart5()
    ensures "| Command | Mean [ms] | Min [ms] | Max [ms] |" + " Relative " + "|"
         == "| Command | Mean [ms] | Min [ms] | Max [ms] | Relative |"
  {
    assert "| Command | Mean [ms] | Min [ms] | Max [ms] |" + " Relative " == "| Command | Mean [ms] | Min [ms] | Max [ms] | Relative ";
  }

  lemma MsHeaderMarkdownLine()
    ensures CellLine(Markdown, ["Command", "Mean [ms]", "Min [ms]", "Max [ms]", "Relative"])
         == "| Command | Mean [ms] | Min [ms] | Max [ms] | Relative |"
  {
    MarkdownCells("Command", "Mean [ms]", "Min [ms]", "Max [ms]", "Relative");
    MsHeaderMarkdownLinePadded();
  }

  lemma MsHeaderMarkdownLinePadded()
    ensures "|" + (" " + "Command" + " ") + "|" + (" " + "Mean [ms]" + " ") + "|" + (" " + "Min [ms]" + " ") + "|" + (" " + "Max [ms]" + " ") + "|" + (" " + "Relative" + " ") + "|"
         == "| Command | Mean [ms] | Min [ms] | Max [ms] | Relative |"
  {
    assert " " + "Command" + " " == " Command ";
    assert " " + "Mean [ms]" + " " == " Mean [ms] ";
    assert " " + "Min [ms]" + " " == " Min [ms] ";
    assert " " + "Max [ms]" + " " == " Max [ms] ";
    assert " " + "Relative" + " " == " Relative ";
    MsHeaderMarkdownLinePart1();
    MsHeaderMarkdownLinePart2();
    MsHeaderMarkdownLinePart3();
    MsHeaderMarkdownLinePart4();
    MsHeaderMarkdownLinePart5();
  }

  lemma MsHeaderOrgLinePart1()
    ensures "|" + " Command  " + "|"
         == "| Command  |"
  {
    assert "|" + " Command  " == "| Command  ";
  }

  lemma MsHeaderOrgLinePart2()
    ensures "| Command  |" + "  Mean [ms] " + "|"
         == "| Command  |  Mean [ms] |"
  {
    assert "| Command  |" + "  Mean [ms] " == "| Command  |  Mean [ms] ";
  }

  lemma MsHeaderOrgLinePart3()
    ensures "| Command  |  Mean [ms] |" + "  Min [ms] " + "|"
         == "| Command  |  Mean [ms] |  Min [ms] |"
  {
    assert "| Command  |  Mean [ms] |" + "  Min [ms] " == "| Command  |  Mean [ms] |  Min [ms] ";
  }

  lemma MsHeaderOrgLinePart4()
    ensures "| Command  |  Mean [ms] |  Min [ms] |" + "  Max [ms] " + "|"
         == "| Command  |  Mean [ms] |  Min [ms] |  Max [ms] |"
  {
    assert "| Command  |  Mean [ms] |  Min [ms] |" + "  Max [ms] " == "| Command  |  Mean [ms] |  Min [ms] |  Max [ms] ";
  }

  lemma MsHeaderOrgLinePart5()
    ensures "| Command  |  Mean [ms] |  Min [ms] |  Max [ms] |" + "  Relative " + "|"
         == "| Command  |  Mean [ms] |  Min [ms] |  Max [ms] |  Relative |"
  {
    assert "| Command  |  Mean [ms] |  Min [ms] |  Max [ms] |" + "  Relative " == "| Command  |  Mean [ms] |  Min [ms] |  Max [ms] |  Relative ";
  }

  lemma MsHeaderOrgLine()
    ensures CellLine(Orgmode, ["Command", "Mean [ms]", "Min [ms]", "Max [ms]", "Relative"])
         == "| Command  |  Mean [ms] |  Min [ms] |  Max [ms] |  Relative |"
  {
    OrgmodeCells("Command", "Mean [ms]", "Min [ms]", "Max [ms]", "Relative");
    MsHeaderOrgLinePadded();
  }

  lemma MsHeaderOrgLinePadded()
    ensures "|" + (" " + "Command" + "  ") + "|" + ("  " + "Mean [ms]" + " ") + "|" + ("  " + "Min [ms]" + " ") + "|" + ("  " + "Max [ms]" + " ") + "|" + ("  " + "Relative" + " ") + "|"
         == "| Command  |  Mean [ms] |  Min [ms] |  Max [ms] |  Relative |"
  {
    assert " " + "Command" + "  " == " Command  ";
    assert "  " + "Mean [ms]" + " " == "  Mean [ms] ";
    assert "  " + "Min [ms]" + " " == "  Min [ms] ";
    assert "  " + "Max [ms]" + " " == "  Max [ms] ";
    assert "  " + "Relative" + " " == "  Relative ";
    MsHeaderOrgLinePart1();
    MsHeaderOrgLinePart2();
    MsHeaderOrgLinePart3();
    MsHeaderOrgLinePart4();
    MsHeaderOrgLinePart5();
  }

  lemma SHeaderMarkdownLinePart1()
    ensures "|" + " Command " + "|"
         == "| Command |"
  {
    assert "|" + " Command " == "| Command ";
  }

  lemma SHeaderMarkdownLinePart2()
    ensures "| Command |" + " Mean [s] " + "|"
         == "| Command | Mean [s] |"
  {
    assert "| Command |" + " Mean [s] " == "| Command | Mean [s] ";
  }

  lemma SHeaderMarkdownLinePart3()
    ensures "| Command | Mean [s] |" + " Min [s] " + "|"
         == "| Command | Mean [s] | Min [s] |"
  {
    assert "| Command | Mean [s] |" + " Min [s] " == "| Command | Mean [s] | Min [s] ";
  }

  lemma SHeaderMarkdownLinePart4()
    ensures "| Command | Mean [s] | Min [s] |" + " Max [s] " + "|"
         == "| Command | Mean [s] | Min [s] | Max [s] |"
  {
    assert "| Command | Mean [s] | Min [s] |" + " Max [s] " == "| Command | Mean [s] | Min [s] | Max [s] ";
  }

  lemma SHeaderMarkdownLinePart5()
    ensures "| Command | Mean [s] | Min [s] | Max [s] |" + " Relative " + "|"
         == "| Command | Mean [s] | Min [s] | Max [s] | Relative |"
  {
    assert "| Command | Mean [s] | Min [s] | Max [s] |" + " Relative " == "| Command | Mean [s] | Min [s] | Max [s] | Relative ";
  }

  lemma SHeaderMarkdownLine()
    ensures CellLine(Markdown, ["Command", "Mean [s]", "Min [s]", "Max [s]", "Relative"])
         == "| Command | Mean [s] | Min [s] | Max [s] | Relative |"
  {
    MarkdownCells("Command", "Mean [s]", "Min [s]", "Max [s]", "Relative");
    SHeaderMarkdownLinePadded();
  }

  lemma SHeaderMarkdownLinePadded()
    ensures "|" + (" " + "Command" + " ") + "|" + (" " + "Mean [s]" + " ") + "|" + (" " + "Min [s]" + " ") + "|" + (" " + "Max [s]" + " ") + "|" + (" " + "Relative" + " ") + "|"
         == "| Command | Mean [s] | Min [s] | Max [s] | Relative |"
  {
    assert " " + "Command" + " " == " Command ";
    assert " " + "Mean [s]" + " " == " Mean [s] ";
    assert " " + "Min [s]" + " " == " Min [s] ";
    assert " " + "Max [s]" + " " == " Max [s] ";
    assert " " + "Relative" + " " == " Relative ";
    SHeaderMarkdownLinePart1();
    SHeaderMarkdownLinePart2();
    SHeaderMarkdownLinePart3();
    SHeaderMarkdownLinePart4();
    SHeaderMarkdownLinePart5();
  }

  lemma SHeaderOrgLinePart1()
    ensures "|" + " Command  " + "|"
         == "| Command  |"
  {
    assert "|" + " Command  " == "| Command  ";
  }

  lemma SHeaderOrgLinePart2()
    ensures "| Command  |" + "  Mean [s] " + "|"
         == "| Command  |  Mean [s] |"
  {
    assert "| Command  |" + "  Mean [s] " == "| Command  |  Mean [s] ";
  }

  lemma SHeaderOrgLinePart3()
    ensures "| Command  |  Mean [s] |" + "  Min [s] " + "|"
         == "| Command  |  Mean [s] |  Min [s] |"
  {
    assert "| Command  |  Mean [s] |" + "  Min [s] " == "| Command  |  Mean [s] |  Min [s] ";
  }

  lemma SHeaderOrgLinePart4()
    ensures "| Command  |  Mean [s] |  Min [s] |" + "  Max [s] " + "|"
         == "| Command  |  Mean [s] |  Min [s] |  Max [s] |"
  {
    assert "| Command  |  Mean [s] |  Min [s] |" + "  Max [s] " == "| Command  |  Mean [s] |  Min [s] |  Max [s] ";
  }

  lemma SHeaderOrgLinePart5()
    ensures "| Command  |  Mean [s] |  Min [s] |  Max [s] |" + "  Relative " + "|"
         == "| Command  |  Mean [s] |  Min [s] |  Max [s] |  Relative |"
  {
    assert "| Command  |  Mean [s] |  Min [s] |  Max [s] |" + "  Relative " == "| Command  |  Mean [s] |  Min [s] |  Max [s] |  Relative ";
  }

  lemma SHeaderOrgLine()
    ensures CellLine(Orgmode, ["Command", "Mean [s]", "Min [s]", "Max [s]", "Relative"])
         == "| Command  |  Mean [s] |  Min [s] |  Max [s] |  Relative |"
  {
    OrgmodeCells("Command", "Mean [s]", "Min [s]", "Max [s]", "Relative");
    SHeaderOrgLinePadded();
  }

  lemma SHeaderOrgLinePadded()
    ensures "|" + (" " + "Command" + "  ") + "|" + ("  " + "Mean [s]" + " ") + "|" + ("  " + "Min [s]" + " ") + "|" + ("  " + "Max [s]" + " ") + "|" + ("  " + "Relative" + " ") + "|"
         == "| Command  |  Mean [s] |  Min [s] |  Max [s] |  Relative |"
  {
    assert " " + "Command" + "  " == " Command  ";
    assert "  " + "Mean [s]" + " " == "  Mean [s] ";
    assert "  " + "Min [s]" + " " == "  Min [s] ";
    assert "  " + "Max [s]" + " " == "  Max [s] ";
    assert "  " + "Relative" + " " == "  Relative ";
    SHeaderOrgLinePart1();
    SHeaderOrgLinePart2();
    SHeaderOrgLinePart3();
    SHeaderOrgLinePart4();
    SHeaderOrgLinePart5();
  }

  lemma AutoMsFirstMarkdownLinePart1()
    ensures "|" + " `sleep 0.1` " + "|"
         == "| `sleep 0.1` |"
  {
    assert "|" + " `sleep 0.1` " == "| `sleep 0.1` ";
  }

  lemma AutoMsFirstMarkdownLinePart2()
    ensures "| `sleep 0.1` |" + " 110.0 ± 26.5 " + "|"
         == "| `sleep 0.1` | 110.0 ± 26.5 |"
  {
    assert "| `sleep 0.1` |" + " 110.0 ± 26.5 " == "| `sleep 0.1` | 110.0 ± 26.5 ";
  }

  lemma AutoMsFirstMarkdownLinePart3()
    ensures "| `sleep 0.1` | 110.0 ± 26.5 |" + " 90.0 " + "|"
         == "| `sleep 0.1` | 110.0 ± 26.5 | 90.0 |"
  {
    assert "| `sleep 0.1` | 110.0 ± 26.5 |" + " 90.0 " == "| `sleep 0.1` | 110.0 ± 26.5 | 90.0 ";
  }

  lemma AutoMsFirstMarkdownLinePart4()
    ensures "| `sleep 0.1` | 110.0 ± 26.5 | 90.0 |" + " 140.0 " + "|"
         == "| `sleep 0.1` | 110.0 ± 26.5 | 90.0 | 140.0 |"
  {
    assert "| `sleep 0.1` | 110.0 ± 26.5 | 90.0 |" + " 140.0 " == "| `sleep 0.1` | 110.0 ± 26.5 | 90.0 | 140.0 ";
  }

  lemma AutoMsFirstMarkdownLinePart5()
    ensures "| `sleep 0.1` | 110.0 ± 26.5 | 90.0 | 140.0 |" + " 1.00 " + "|"
         == "| `sleep 0.1` | 110.0 ± 26.5 | 90.0 | 140.0 | 1.00 |"
  {
    assert "| `sleep 0.1` | 110.0 ± 26.5 | 90.0 | 140.0 |" + " 1.00 " == "| `sleep 0.1` | 110.0 ± 26.5 | 90.0 | 140.0 | 1.00 ";
  }

  lemma AutoMsFirstMarkdownLine()
    ensures CellLine(Markdown, ["`sleep 0.1`", "110.0 ± 26.5", "90.0", "140.0", "1.00"])
         == "| `sleep 0.1` | 110.0 ± 26.5 | 90.0 | 140.0 | 1.00 |"
  {
    MarkdownCells("`sleep 0.1`", "110.0 ± 26.5", "90.0", "140.0", "1.00");
    AutoMsFirstMarkdownLinePadded();
  }

  lemma AutoMsFirstMarkdownLinePadded()
    ensures "|" + (" " + "`sleep 0.1`" + " ") + "|" + (" " + "110.0 ± 26.5" + " ") + "|" + (" " + "90.0" + " ") + "|" + (" " + "140.0" + " ") + "|" + (" " + "1.00" + " ") + "|"
         == "| `sleep 0.1` | 110.0 ± 26.5 | 90.0 | 140.0 | 1.00 |"
  {
    assert " " + "`sleep 0.1`" + " " == " `sleep 0.1` ";
    assert " " + "110.0 ± 26.5" + " " == " 110.0 ± 26.5 ";
    assert " " + "90.0" + " " == " 90.0 ";
    assert " " + "140.0" + " " == " 140.0 ";
    assert " " + "1.00" + " " == " 1.00 ";
    AutoMsFirstMarkdownLinePart1();
    AutoMsFirstMarkdownLinePart2();
    AutoMsFirstMarkdownLinePart3();
    AutoMsFirstMarkdownLinePart4();
    AutoMsFirstMarkdownLinePart5();
  }

  lemma AutoMsFirstOrgLinePart1()
    ensures "|" + " =sleep 0.1=  " + "|"
         == "| =sleep 0.1=  |"
  {
    assert "|" + " =sleep 0.1=  " == "| =sleep 0.1=  ";
  }

  lemma AutoMsFirstOrgLinePart2()
    ensures "| =sleep 0.1=  |" + "  110.0 ± 26.5 " + "|"
         == "| =sleep 0.1=  |  110.0 ± 26.5 |"
  {
    assert "| =sleep 0.1=  |" + "  110.0 ± 26.5 " == "| =sleep 0.1=  |  110.0 ± 26.5 ";
  }

  lemma AutoMsFirstOrgLinePart3()
    ensures "| =sleep 0.1=  |  110.0 ± 26.5 |" + "  90.0 " + "|"
         == "| =sleep 0.1=  |  110.0 ± 26.5 |  90.0 |"
  {
    assert "| =sleep 0.1=  |  110.0 ± 26.5 |" + "  90.0 " == "| =sleep 0.1=  |  110.0 ± 26.5 |  90.0 ";
  }

  lemma AutoMsFirstOrgLinePart4()
    ensures "| =sleep 0.1=  |  110.0 ± 26.5 |  90.0 |" + "  140.0 " + "|"
         == "| =sleep 0.1=  |  110.0 ± 26.5 |  90.0 |  140.0 |"
  {
    assert "| =sleep 0.1=  |  110.0 ± 26.5 |  90.0 |" + "  140.0 " == "| =sleep 0.1=  |  110.0 ± 26.5 |  90.0 |  140.0 ";
  }

  lemma AutoMsFirstOrgLinePart5()
    ensures "| =sleep 0.1=  |  110.0 ± 26.5 |  90.0 |  140.0 |" + "  1.00 " + "|"
         == "| =sleep 0.1=  |  110.0 ± 26.5 |  90.0 |  140.0 |  1.00 |"
  {
    assert "| =sleep 0.1=  |  110.0 ± 26.5 |  90.0 |  140.0 |" + "  1.00 " == "| =sleep 0.1=  |  110.0 ± 26.5 |  90.0 |  140.0 |  1.00 ";
  }

  lemma AutoMsFirstOrgLine()
    ensures CellLine(Orgmode, ["=sleep 0.1=", "110.0 ± 26.5", "90.0", "140.0", "1.00"])
         == "| =sleep 0.1=  |  110.0 ± 26.5 |  90.0 |  140.0 |  1.00 |"
  {
    OrgmodeCells("=sleep 0.1=", "110.0 ± 26.5", "90.0", "140.0", "1.00");
    AutoMsFirstOrgLinePadded();
  }

  lemma AutoMsFirstOrgLinePadded()
    ensures "|" + (" " + "=sleep 0.1=" + "  ") + "|" + ("  " + "110.0 ± 26.5" + " ") + "|" + ("  " + "90.0" + " ") + "|" + ("  " + "140.0" + " ") + "|" + ("  " + "1.00" + " ") + "|"
         == "| =sleep 0.1=  |  110.0 ± 26.5 |  90.0 |  140.0 |  1.00 |"
  {
    assert " " + "=sleep 0.1=" + "  " == " =sleep 0.1=  ";
    assert "  " + "110.0 ± 26.5" + " " == "  110.0 ± 26.5 ";
    assert "  " + "90.0" + " " == "  90.0 ";
    assert "  " + "140.0" + " " == "  140.0 ";
    assert "  " + "1.00" + " " == "  1.00 ";
    AutoMsFirstOrgLinePart1();
    AutoMsFirstOrgLinePart2();
    AutoMsFirstOrgLinePart3();
    AutoMsFirstOrgLinePart4();
    AutoMsFirstOrgLinePart5();
  }

  lemma AutoMsSecondMarkdownLinePart1()
    ensures "|" + " `sleep 2` " + "|"
         == "| `sleep 2` |"
  {
    assert "|" + " `sleep 2` " == "| `sleep 2` ";
  }

  lemma AutoMsSecondMarkdownLinePart2()
    ensures "| `sleep 2` |" + " 3000.0 ± 1000.0 " + "|"
         == "| `sleep 2` | 3000.0 ± 1000.0 |"
  {
    assert "| `sleep 2` |" + " 3000.0 ± 1000.0 " == "| `sleep 2` | 3000.0 ± 1000.0 ";
  }

  lemma AutoMsSecondMarkdownLinePart3()
    ensures "| `sleep 2` | 3000.0 ± 1000.0 |" + " 2000.0 " + "|"
         == "| `sleep 2` | 3000.0 ± 1000.0 | 2000.0 |"
  {
    assert "| `sleep 2` | 3000.0 ± 1000.0 |" + " 2000.0 " == "| `sleep 2` | 3000.0 ± 1000.0 | 2000.0 ";
  }

  lemma AutoMsSecondMarkdownLinePart4()
    ensures "| `sleep 2` | 3000.0 ± 1000.0 | 2000.0 |" + " 4000.0 " + "|"
         == "| `sleep 2` | 3000.0 ± 1000.0 | 2000.0 | 4000.0 |"
  {
    assert "| `sleep 2` | 3000.0 ± 1000.0 | 2000.0 |" + " 4000.0 " == "| `sleep 2` | 3000.0 ± 1000.0 | 2000.0 | 4000.0 ";
  }

  lemma AutoMsSecondMarkdownLinePart5()
    ensures "| `sleep 2` | 3000.0 ± 1000.0 | 2000.0 | 4000.0 |" + " 27.27 ± 11.21 " + "|"
         == "| `sleep 2` | 3000.0 ± 1000.0 | 2000.0 | 4000.0 | 27.27 ± 11.21 |"
  {
    assert "| `sleep 2` | 3000.0 ± 1000.0 | 2000.0 | 4000.0 |" + " 27.27 ± 11.21 " == "| `sleep 2` | 3000.0 ± 1000.0 | 2000.0 | 4000.0 | 27.27 ± 11.21 ";
  }

  lemma AutoMsSecondMarkdownLine()
    ensures CellLine(Markdown, ["`sleep 2`", "3000.0 ± 1000.0", "2000.0", "4000.0", "27.27 ± 11.21"])
         == "| `sleep 2` | 3000.0 ± 1000.0 | 2000.0 | 4000.0 | 27.27 ± 11.21 |"
  {
    MarkdownCells("`sleep 2`", "3000.0 ± 1000.0", "2000.0", "4000.0", "27.27 ± 11.21");
    AutoMsSecondMarkdownLinePadded();
  }

  lemma AutoMsSecondMarkdownLinePadded()
    ensures "|" + (" " + "`sleep 2`" + " ") + "|" + (" " + "3000.0 ± 1000.0" + " ") + "|" + (" " + "2000.0" + " ") + "|" + (" " + "4000.0" + " ") + "|" + (" " + "27.27 ± 11.21" + " ") + "|"
         == "| `sleep 2` | 3000.0 ± 1000.0 | 2000.0 | 4000.0 | 27.27 ± 11.21 |"
  {
    assert " " + "`sleep 2`" + " " == " `sleep 2` ";
    assert " " + "3000.0 ± 1000.0" + " " == " 3000.0 ± 1000.0 ";
    assert " " + "2000.0" + " " == " 2000.0 ";
    assert " " + "4000.0" + " " == " 4000.0 ";
    assert " " + "27.27 ± 11.21" + " " == " 27.27 ± 11.21 ";
    AutoMsSecondMarkdownLinePart1();
    AutoMsSecondMarkdownLinePart2();
    AutoMsSecondMarkdownLinePart3();
    AutoMsSecondMarkdownLinePart4();
    AutoMsSecondMarkdownLinePart5();
  }

  lemma AutoMsSecondOrgLinePart1()
    ensures "|" + " =sleep 2=  " + "|"
         == "| =sleep 2=  |"
  {
    assert "|" + " =sleep 2=  " == "| =sleep 2=  ";
  }

  lemma AutoMsSecondOrgLinePart2()
    ensures "| =sleep 2=  |" + "  3000.0 ± 1000.0 " + "|"
         == "| =sleep 2=  |  3000.0 ± 1000.0 |"
  {
    assert "| =sleep 2=  |" + "  3000.0 ± 1000.0 " == "| =sleep 2=  |  3000.0 ± 1000.0 ";
  }

  lemma AutoMsSecondOrgLinePart3()
    ensures "| =sleep 2=  |  3000.0 ± 1000.0 |" + "  2000.0 " + "|"
         == "| =sleep 2=  |  3000.0 ± 1000.0 |  2000.0 |"
  {
    assert "| =sleep 2=  |  3000.0 ± 1000.0 |" + "  2000.0 " == "| =sleep 2=  |  3000.0 ± 1000.0 |  2000.0 ";
  }

  lemma AutoMsSecondOrgLinePart4()
    ensures "| =sleep 2=  |  3000.0 ± 1000.0 |  2000.0 |" + "  4000.0 " + "|"
         == "| =sleep 2=  |  3000.0 ± 1000.0 |  2000.0 |  4000.0 |"
  {
    assert "| =sleep 2=  |  3000.0 ± 1000.0 |  2000.0 |" + "  4000.0 " == "| =sleep 2=  |  3000.0 ± 1000.0 |  2000.0 |  4000.0 ";
  }

  lemma AutoMsSecondOrgLinePart5()
    ensures "| =sleep 2=  |  3000.0 ± 1000.0 |  2000.0 |  4000.0 |" + "  27.27 ± 11.21 " + "|"
         == "| =sleep 2=  |  3000.0 ± 1000.0 |  2000.0 |  4000.0 |  27.27 ± 11.21 |"
  {
    assert "| =sleep 2=  |  3000.0 ± 1000.0 |  2000.0 |  4000.0 |" + "  27.27 ± 11.21 " == "| =sleep 2=  |  3000.0 ± 1000.0 |  2000.0 |  4000.0 |  27.27 ± 11.21 ";
  }

  lemma AutoMsSecondOrgLine()
    ensures CellLine(Orgmode, ["=sleep 2=", "3000.0 ± 1000.0", "2000.0", "4000.0", "27.27 ± 11.21"])
         == "| =sleep 2=  |  3000.0 ± 1000.0 |  2000.0 |  4000.0 |  27.27 ± 11.21 |"
  {
    OrgmodeCells("=sleep 2=", "3000.0 ± 1000.0", "2000.0", "4000.0", "27.27 ± 11.21");
    AutoMsSecondOrgLinePadded();
  }

  lemma AutoMsSecondOrgLinePadded()
    ensures "|" + (" " + "=sleep 2=" + "  ") + "|" + ("  " + "3000.0 ± 1000.0" + " ") + "|" + ("  " + "2000.0" + " ") + "|" + ("  " + "4000.0" + " ") + "|" + ("  " + "27.27 ± 11.21" + " ") + "|"
         == "| =sleep 2=  |  3000.0 ± 1000.0 |  2000.0 |  4000.0 |  27.27 ± 11.21 |"
  {
    assert " " + "=sleep 2=" + "  " == " =sleep 2=  ";
    assert "  " + "3000.0 ± 1000.0" + " " == "  3000.0 ± 1000.0 ";
    assert "  " + "2000.0" + " " == "  2000.0 ";
    assert "  " + "4000.0" + " " == "  4000.0 ";
    assert "  " + "27.27 ± 11.21" + " " == "  27.27 ± 11.21 ";
    AutoMsSecondOrgLinePart1();
    AutoMsSecondOrgLinePart2();
    AutoMsSecondOrgLinePart3();
    AutoMsSecondOrgLinePart4();
    AutoMsSecondOrgLinePart5();
  }

  lemma AutoSFirstMarkdownLinePart1()
    ensures "|" + " `sleep 2` " + "|"
         == "| `sleep 2` |"
  {
    assert "|" + " `sleep 2` " == "| `sleep 2` ";
  }

  lemma AutoSFirstMarkdownLinePart2()
    ensures "| `sleep 2` |" + " 2.200 ± 0.100 " + "|"
         == "| `sleep 2` | 2.200 ± 0.100 |"
  {
    assert "| `sleep 2` |" + " 2.200 ± 0.100 " == "| `sleep 2` | 2.200 ± 0.100 ";
  }

  lemma AutoSFirstMarkdownLinePart3()
    ensures "| `sleep 2` | 2.200 ± 0.100 |" + " 2.100 " + "|"
         == "| `sleep 2` | 2.200 ± 0.100 | 2.100 |"
  {
    assert "| `sleep 2` | 2.200 ± 0.100 |" + " 2.100 " == "| `sleep 2` | 2.200 ± 0.100 | 2.100 ";
  }

  lemma AutoSFirstMarkdownLinePart4()
    ensures "| `sleep 2` | 2.200 ± 0.100 | 2.100 |" + " 2.300 " + "|"
         == "| `sleep 2` | 2.200 ± 0.100 | 2.100 | 2.300 |"
  {
    assert "| `sleep 2` | 2.200 ± 0.100 | 2.100 |" + " 2.300 " == "| `sleep 2` | 2.200 ± 0.100 | 2.100 | 2.300 ";
  }

  lemma AutoSFirstMarkdownLinePart5()
    ensures "| `sleep 2` | 2.200 ± 0.100 | 2.100 | 2.300 |" + " 11.00 ± 5.52 " + "|"
         == "| `sleep 2` | 2.200 ± 0.100 | 2.100 | 2.300 | 11.00 ± 5.52 |"
  {
    assert "| `sleep 2` | 2.200 ± 0.100 | 2.100 | 2.300 |" + " 11.00 ± 5.52 " == "| `sleep 2` | 2.200 ± 0.100 | 2.100 | 2.300 | 11.00 ± 5.52 ";
  }

  lemma AutoSFirstMarkdownLine()
    ensures CellLine(Markdown, ["`sleep 2`", "2.200 ± 0.100", "2.100", "2.300", "11.00 ± 5.52"])
         == "| `sleep 2` | 2.200 ± 0.100 | 2.100 | 2.300 | 11.00 ± 5.52 |"
  {
    MarkdownCells("`sleep 2`", "2.200 ± 0.100", "2.100", "2.300", "11.00 ± 5.52");
    AutoSFirstMarkdownLinePadded();
  }

  lemma AutoSFirstMarkdownLinePadded()
    ensures "|" + (" " + "`sleep 2`" + " ") + "|" + (" " + "2.200 ± 0.100" + " ") + "|" + (" " + "2.100" + " ") + "|" + (" " + "2.300" + " ") + "|" + (" " + "11.00 ± 5.52" + " ") + "|"
         == "| `sleep 2` | 2.200 ± 0.100 | 2.100 | 2.300 | 11.00 ± 5.52 |"
  {
    assert " " + "`sleep 2`" + " " == " `sleep 2` ";
    assert " " + "2.200 ± 0.100" + " " == " 2.200 ± 0.100 ";
    assert " " + "2.100" + " " == " 2.100 ";
    assert " " + "2.300" + " " == " 2.300 ";
    assert " " + "11.00 ± 5.52" + " " == " 11.00 ± 5.52 ";
    AutoSFirstMarkdownLinePart1();
    AutoSFirstMarkdownLinePart2();
    AutoSFirstMarkdownLinePart3();
    AutoSFirstMarkdownLinePart4();
    AutoSFirstMarkdownLinePart5();
  }

  lemma AutoSFirstOrgLinePart1()
    ensures "|" + " =sleep 2=  " + "|"
         == "| =sleep 2=  |"
  {
    assert "|" + " =sleep 2=  " == "| =sleep 2=  ";
  }

  lemma AutoSFirstOrgLinePart2()
    ensures "| =sleep 2=  |" + "  2.200 ± 0.100 " + "|"
         == "| =sleep 2=  |  2.200 ± 0.100 |"
  {
    assert "| =sleep 2=  |" + "  2.200 ± 0.100 " == "| =sleep 2=  |  2.200 ± 0.100 ";
  }

  lemma AutoSFirstOrgLinePart3()
    ensures "| =sleep 2=  |  2.200 ± 0.100 |" + "  2.100 " + "|"
         == "| =sleep 2=  |  2.200 ± 0.100 |  2.100 |"
  {
    assert "| =sleep 2=  |  2.200 ± 0.100 |" + "  2.100 " == "| =sleep 2=  |  2.200 ± 0.100 |  2.100 ";
  }

  lemma AutoSFirstOrgLinePart4()
    ensures "| =sleep 2=  |  2.200 ± 0.100 |  2.100 |" + "  2.300 " + "|"
         == "| =sleep 2=  |  2.200 ± 0.100 |  2.100 |  2.300 |"
  {
    assert "| =sleep 2=  |  2.200 ± 0.100 |  2.100 |" + "  2.300 " == "| =sleep 2=  |  2.200 ± 0.100 |  2.100 |  2.300 ";
  }

  lemma AutoSFirstOrgLinePart5()
    ensures "| =sleep 2=  |  2.200 ± 0.100 |  2.100 |  2.300 |" + "  11.00 ± 5.52 " + "|"
         == "| =sleep 2=  |  2.200 ± 0.100 |  2.100 |  2.300 |  11.00 ± 5.52 |"
  {
    assert "| =sleep 2=  |  2.200 ± 0.100 |  2.100 |  2.300 |" + "  11.00 ± 5.52 " == "| =sleep 2=  |  2.200 ± 0.100 |  2.100 |  2.300 |  11.00 ± 5.52 ";
  }

  lemma AutoSFirstOrgLine()
    ensures CellLine(Orgmode, ["=sleep 2=", "2.200 ± 0.100", "2.100", "2.300", "11.00 ± 5.52"])
         == "| =sleep 2=  |  2.200 ± 0.100 |  2.100 |  2.300 |  11.00 ± 5.52 |"
  {
    OrgmodeCells("=sleep 2=", "2.200 ± 0.100", "2.100", "2.300", "11.00 ± 5.52");
    AutoSFirstOrgLinePadded();
  }

  lemma AutoSFirstOrgLinePadded()
    ensures "|" + (" " + "=sleep 2=" + "  ") + "|" + ("  " + "2.200 ± 0.100" + " ") + "|" + ("  " + "2.100" + " ") + "|" + ("  " + "2.300" + " ") + "|" + ("  " + "11.00 ± 5.52" + " ") + "|"
         == "| =sleep 2=  |  2.200 ± 0.100 |  2.100 |  2.300 |  11.00 ± 5.52 |"
  {
    assert " " + "=sleep 2=" + "  " == " =sleep 2=  ";
    assert "  " + "2.200 ± 0.100" + " " == "  2.200 ± 0.100 ";
    assert "  " + "2.100" + " " == "  2.100 ";
    assert "  " + "2.300" + " " == "  2.300 ";
    assert "  " + "11.00 ± 5.52" + " " == "  11.00 ± 5.52 ";
    AutoSFirstOrgLinePart1();
    AutoSFirstOrgLinePart2();
    AutoSFirstOrgLinePart3();
    AutoSFirstOrgLinePart4();
    AutoSFirstOrgLinePart5();
  }

  lemma AutoSSecondMarkdownLinePart1()
    ensures "|" + " `sleep 0.1` " + "|"
         == "| `sleep 0.1` |"
  {
    assert "|" + " `sleep 0.1` " == "| `sleep 0.1` ";
  }

  lemma AutoSSecondMarkdownLinePart2()
    ensures "| `sleep 0.1` |" + " 0.200 ± 0.100 " + "|"
         == "| `sleep 0.1` | 0.200 ± 0.100 |"
  {
    assert "| `sleep 0.1` |" + " 0.200 ± 0.100 " == "| `sleep 0.1` | 0.200 ± 0.100 ";
  }

  lemma AutoSSecondMarkdownLinePart3()
    ensures "| `sleep 0.1` | 0.200 ± 0.100 |" + " 0.100 " + "|"
         == "| `sleep 0.1` | 0.200 ± 0.100 | 0.100 |"
  {
    assert "| `sleep 0.1` | 0.200 ± 0.100 |" + " 0.100 " == "| `sleep 0.1` | 0.200 ± 0.100 | 0.100 ";
  }

  lemma AutoSSecondMarkdownLinePart4()
    ensures "| `sleep 0.1` | 0.200 ± 0.100 | 0.100 |" + " 0.300 " + "|"
         == "| `sleep 0.1` | 0.200 ± 0.100 | 0.100 | 0.300 |"
  {
    assert "| `sleep 0.1` | 0.200 ± 0.100 | 0.100 |" + " 0.300 " == "| `sleep 0.1` | 0.200 ± 0.100 | 0.100 | 0.300 ";
  }

  lemma AutoSSecondMarkdownLinePart5()
    ensures "| `sleep 0.1` | 0.200 ± 0.100 | 0.100 | 0.300 |" + " 1.00 " + "|"
         == "| `sleep 0.1` | 0.200 ± 0.100 | 0.100 | 0.300 | 1.00 |"
  {
    assert "| `sleep 0.1` | 0.200 ± 0.100 | 0.100 | 0.300 |" + " 1.00 " == "| `sleep 0.1` | 0.200 ± 0.100 | 0.100 | 0.300 | 1.00 ";
  }

  lemma AutoSSecondMarkdownLine()
    ensures CellLine(Markdown, ["`sleep 0.1`", "0.200 ± 0.100", "0.100", "0.300", "1.00"])
         == "| `sleep 0.1` | 0.200 ± 0.100 | 0.100 | 0.300 | 1.00 |"
  {
    MarkdownCells("`sleep 0.1`", "0.200 ± 0.100", "0.100", "0.300", "1.00");
    AutoSSecondMarkdownLinePadded();
  }

  lemma AutoSSecondMarkdownLinePadded()
    ensures "|" + (" " + "`sleep 0.1`" + " ") + "|" + (" " + "0.200 ± 0.100" + " ") + "|" + (" " + "0.100" + " ") + "|" + (" " + "0.300" + " ") + "|" + (" " + "1.00" + " ") + "|"
         == "| `sleep 0.1` | 0.200 ± 0.100 | 0.100 | 0.300 | 1.00 |"
  {
    assert " " + "`sleep 0.1`" + " " == " `sleep 0.1` ";
    assert " " + "0.200 ± 0.100" + " " == " 0.200 ± 0.100 ";
    assert " " + "0.100" + " " == " 0.100 ";
    assert " " + "0.300" + " " == " 0.300 ";
    assert " " + "1.00" + " " == " 1.00 ";
    AutoSSecondMarkdownLinePart1();
    AutoSSecondMarkdownLinePart2();
    AutoSSecondMarkdownLinePart3();
    AutoSSecondMarkdownLinePart4();
    AutoSSecondMarkdownLinePart5();
  }

  lemma AutoSSecondOrgLinePart1()
    ensures "|" + " =sleep 0.1=  " + "|"
         == "| =sleep 0.1=  |"
  {
    assert "|" + " =sleep 0.1=  " == "| =sleep 0.1=  ";
  }

  lemma AutoSSecondOrgLinePart2()
    ensures "| =sleep 0.1=  |" + "  0.200 ± 0.100 " + "|"
         == "| =sleep 0.1=  |  0.200 ± 0.100 |"
  {
    assert "| =sleep 0.1=  |" + "  0.200 ± 0.100 " == "| =sleep 0.1=  |  0.200 ± 0.100 ";
  }

  lemma AutoSSecondOrgLinePart3()
    ensures "| =sleep 0.1=  |  0.200 ± 0.100 |" + "  0.100 " + "|"
         == "| =sleep 0.1=  |  0.200 ± 0.100 |  0.100 |"
  {
    assert "| =sleep 0.1=  |  0.200 ± 0.100 |" + "  0.100 " == "| =sleep 0.1=  |  0.200 ± 0.100 |  0.100 ";
  }

  lemma AutoSSecondOrgLinePart4()
    ensures "| =sleep 0.1=  |  0.200 ± 0.100 |  0.100 |" + "  0.300 " + "|"
         == "| =sleep 0.1=  |  0.200 ± 0.100 |  0.100 |  0.300 |"
  {
    assert "| =sleep 0.1=  |  0.200 ± 0.100 |  0.100 |" + "  0.300 " == "| =sleep 0.1=  |  0.200 ± 0.100 |  0.100 |  0.300 ";
  }

  lemma AutoSSecondOrgLinePart5()
    ensures "| =sleep 0.1=  |  0.200 ± 0.100 |  0.100 |  0.300 |" + "  1.00 " + "|"
         == "| =sleep 0.1=  |  0.200 ± 0.100 |  0.100 |  0.300 |  1.00 |"
  {
    assert "| =sleep 0.1=  |  0.200 ± 0.100 |  0.100 |  0.300 |" + "  1.00 " == "| =sleep 0.1=  |  0.200 ± 0.100 |  0.100 |  0.300 |  1.00 ";
  }

  lemma AutoSSecondOrgLine()
    ensures CellLine(Orgmode, ["=sleep 0.1=", "0.200 ± 0.100", "0.100", "0.300", "1.00"])
         == "| =sleep 0.1=  |  0.200 ± 0.100 |  0.100 |  0.300 |  1.00 |"
  {
    OrgmodeCells("=sleep 0.1=", "0.200 ± 0.100", "0.100", "0.300", "1.00");
    AutoSSecondOrgLinePadded();
  }

  lemma AutoSSecondOrgLinePadded()
    ensures "|" + (" " + "=sleep 0.1=" + "  ") + "|" + ("  " + "0.200 ± 0.100" + " ") + "|" + ("  " + "0.100" + " ") + "|" + ("  " + "0.300" + " ") + "|" + ("  " + "1.00" + " ") + "|"
         == "| =sleep 0.1=  |  0.200 ± 0.100 |  0.100 |  0.300 |  1.00 |"
  {
    assert " " + "=sleep 0.1=" + "  " == " =sleep 0.1=  ";
    assert "  " + "0.200 ± 0.100" + " " == "  0.200 ± 0.100 ";
    assert "  " + "0.100" + " " == "  0.100 ";
    assert "  " + "0.300" + " " == "  0.300 ";
    assert "  " + "1.00" + " " == "  1.00 ";
    AutoSSecondOrgLinePart1();
    AutoSSecondOrgLinePart2();
    AutoSSecondOrgLinePart3();
    AutoSSecondOrgLinePart4();
    AutoSSecondOrgLinePart5();
  }

  lemma ManualMsFirstMarkdownLinePart1()
    ensures "|" + " `sleep 2` " + "|"
         == "| `sleep 2` |"
  {
    assert "|" + " `sleep 2` " == "| `sleep 2` ";
  }

  lemma ManualMsFirstMarkdownLinePart2()
    ensures "| `sleep 2` |" + " 2200.0 ± 100.0 " + "|"
         == "| `sleep 2` | 2200.0 ± 100.0 |"
  {
    assert "| `sleep 2` |" + " 2200.0 ± 100.0 " == "| `sleep 2` | 2200.0 ± 100.0 ";
  }

  lemma ManualMsFirstMarkdownLinePart3()
    ensures "| `sleep 2` | 2200.0 ± 100.0 |" + " 2100.0 " + "|"
         == "| `sleep 2` | 2200.0 ± 100.0 | 2100.0 |"
  {
    assert "| `sleep 2` | 2200.0 ± 100.0 |" + " 2100.0 " == "| `sleep 2` | 2200.0 ± 100.0 | 2100.0 ";
  }

  lemma ManualMsFirstMarkdownLinePart4()
    ensures "| `sleep 2` | 2200.0 ± 100.0 | 2100.0 |" + " 2300.0 " + "|"
         == "| `sleep 2` | 2200.0 ± 100.0 | 2100.0 | 2300.0 |"
  {
    assert "| `sleep 2` | 2200.0 ± 100.0 | 2100.0 |" + " 2300.0 " == "| `sleep 2` | 2200.0 ± 100.0 | 2100.0 | 2300.0 ";
  }

  lemma ManualMsFirstMarkdownLinePart5()
    ensures "| `sleep 2` | 2200.0 ± 100.0 | 2100.0 | 2300.0 |" + " 11.00 ± 5.52 " + "|"
         == "| `sleep 2` | 2200.0 ± 100.0 | 2100.0 | 2300.0 | 11.00 ± 5.52 |"
  {
    assert "| `sleep 2` | 2200.0 ± 100.0 | 2100.0 | 2300.0 |" + " 11.00 ± 5.52 " == "| `sleep 2` | 2200.0 ± 100.0 | 2100.0 | 2300.0 | 11.00 ± 5.52 ";
  }

  lemma ManualMsFirstMarkdownLine()
    ensures CellLine(Markdown, ["`sleep 2`", "2200.0 ± 100.0", "2100.0", "2300.0", "11.00 ± 5.52"])
         == "| `sleep 2` | 2200.0 ± 100.0 | 2100.0 | 2300.0 | 11.00 ± 5.52 |"
  {
    MarkdownCells("`sleep 2`", "2200.0 ± 100.0", "2100.0", "2300.0", "11.00 ± 5.52");
    ManualMsFirstMarkdownLinePadded();
  }

  lemma ManualMsFirstMarkdownLinePadded()
    ensures "|" + (" " + "`sleep 2`" + " ") + "|" + (" " + "2200.0 ± 100.0" + " ") + "|" + (" " + "2100.0" + " ") + "|" + (" " + "2300.0" + " ") + "|" + (" " + "11.00 ± 5.52" + " ") + "|"
         == "| `sleep 2` | 2200.0 ± 100.0 | 2100.0 | 2300.0 | 11.00 ± 5.52 |"
  {
    assert " " + "`sleep 2`" + " " == " `sleep 2` ";
    assert " " + "2200.0 ± 100.0" + " " == " 2200.0 ± 100.0 ";
    assert " " + "2100.0" + " " == " 2100.0 ";
    assert " " + "2300.0" + " " == " 2300.0 ";
    assert " " + "11.00 ± 5.52" + " " == " 11.00 ± 5.52 ";
    ManualMsFirstMarkdownLinePart1();
    ManualMsFirstMarkdownLinePart2();
    ManualMsFirstMarkdownLinePart3();
    ManualMsFirstMarkdownLinePart4();
    ManualMsFirstMarkdownLinePart5();
  }

  lemma ManualMsFirstOrgLinePart1()
    ensures "|" + " =sleep 2=  " + "|"
         == "| =sleep 2=  |"
  {
    assert "|" + " =sleep 2=  " == "| =sleep 2=  ";
  }

  lemma ManualMsFirstOrgLinePart2()
    ensures "| =sleep 2=  |" + "  2200.0 ± 100.0 " + "|"
         == "| =sleep 2=  |  2200.0 ± 100.0 |"
  {
    assert "| =sleep 2=  |" + "  2200.0 ± 100.0 " == "| =sleep 2=  |  2200.0 ± 100.0 ";
  }

  lemma ManualMsFirstOrgLinePart3()
    ensures "| =sleep 2=  |  2200.0 ± 100.0 |" + "  2100.0 " + "|"
         == "| =sleep 2=  |  2200.0 ± 100.0 |  2100.0 |"
  {
    assert "| =sleep 2=  |  2200.0 ± 100.0 |" + "  2100.0 " == "| =sleep 2=  |  2200.0 ± 100.0 |  2100.0 ";
  }

  lemma ManualMsFirstOrgLinePart4()
    ensures "| =sleep 2=  |  2200.0 ± 100.0 |  2100.0 |" + "  2300.0 " + "|"
         == "| =sleep 2=  |  2200.0 ± 100.0 |  2100.0 |  2300.0 |"
  {
    assert "| =sleep 2=  |  2200.0 ± 100.0 |  2100.0 |" + "  2300.0 " == "| =sleep 2=  |  2200.0 ± 100.0 |  2100.0 |  2300.0 ";
  }

  lemma ManualMsFirstOrgLinePart5()
    ensures "| =sleep 2=  |  2200.0 ± 100.0 |  2100.0 |  2300.0 |" + "  11.00 ± 5.52 " + "|"
         == "| =sleep 2=  |  2200.0 ± 100.0 |  2100.0 |  2300.0 |  11.00 ± 5.52 |"
  {
    assert "| =sleep 2=  |  2200.0 ± 100.0 |  2100.0 |  2300.0 |" + "  11.00 ± 5.52 " == "| =sleep 2=  |  2200.0 ± 100.0 |  2100.0 |  2300.0 |  11.00 ± 5.52 ";
  }

  lemma ManualMsFirstOrgLine()
    ensures CellLine(Orgmode, ["=sleep 2=", "2200.0 ± 100.0", "2100.0", "2300.0", "11.00 ± 5.52"])
         == "| =sleep 2=  |  2200.0 ± 100.0 |  2100.0 |  2300.0 |  11.00 ± 5.52 |"
  {
    OrgmodeCells("=sleep 2=", "2200.0 ± 100.0", "2100.0", "2300.0", "11.00 ± 5.52");
    ManualMsFirstOrgLinePadded();
  }

  lemma ManualMsFirstOrgLinePadded()
    ensures "|" + (" " + "=sleep 2=" + "  ") + "|" + ("  " + "2200.0 ± 100.0" + " ") + "|" + ("  " + "2100.0" + " ") + "|" + ("  " + "2300.0" + " ") + "|" + ("  " + "11.00 ± 5.52" + " ") + "|"
         == "| =sleep 2=  |  2200.0 ± 100.0 |  2100.0 |  2300.0 |  11.00 ± 5.52 |"
  {
    assert " " + "=sleep 2=" + "  " == " =sleep 2=  ";
    assert "  " + "2200.0 ± 100.0" + " " == "  2200.0 ± 100.0 ";
    assert "  " + "2100.0" + " " == "  2100.0 ";
    assert "  " + "2300.0" + " " == "  2300.0 ";
    assert "  " + "11.00 ± 5.52" + " " == "  11.00 ± 5.52 ";
    ManualMsFirstOrgLinePart1();
    ManualMsFirstOrgLinePart2();
    ManualMsFirstOrgLinePart3();
    ManualMsFirstOrgLinePart4();
    ManualMsFirstOrgLinePart5();
  }

  lemma ManualMsSecondMarkdownLinePart1()
    ensures "|" + " `sleep 0.1` " + "|"
         == "| `sleep 0.1` |"
  {
    assert "|" + " `sleep 0.1` " == "| `sleep 0.1` ";
  }

  lemma ManualMsSecondMarkdownLinePart2()
    ensures "| `sleep 0.1` |" + " 200.0 ± 100.0 " + "|"
         == "| `sleep 0.1` | 200.0 ± 100.0 |"
  {
    assert "| `sleep 0.1` |" + " 200.0 ± 100.0 " == "| `sleep 0.1` | 200.0 ± 100.0 ";
  }

  lemma ManualMsSecondMarkdownLinePart3()
    ensures "| `sleep 0.1` | 200.0 ± 100.0 |" + " 100.0 " + "|"
         == "| `sleep 0.1` | 200.0 ± 100.0 | 100.0 |"
  {
    assert "| `sleep 0.1` | 200.0 ± 100.0 |" + " 100.0 " == "| `sleep 0.1` | 200.0 ± 100.0 | 100.0 ";
  }

  lemma ManualMsSecondMarkdownLinePart4()
    ensures "| `sleep 0.1` | 200.0 ± 100.0 | 100.0 |" + " 300.0 " + "|"
         == "| `sleep 0.1` | 200.0 ± 100.0 | 100.0 | 300.0 |"
  {
    assert "| `sleep 0.1` | 200.0 ± 100.0 | 100.0 |" + " 300.0 " == "| `sleep 0.1` | 200.0 ± 100.0 | 100.0 | 300.0 ";
  }

  lemma ManualMsSecondMarkdownLinePart5()
    ensures "| `sleep 0.1` | 200.0 ± 100.0 | 100.0 | 300.0 |" + " 1.00 " + "|"
         == "| `sleep 0.1` | 200.0 ± 100.0 | 100.0 | 300.0 | 1.00 |"
  {
    assert "| `sleep 0.1` | 200.0 ± 100.0 | 100.0 | 300.0 |" + " 1.00 " == "| `sleep 0.1` | 200.0 ± 100.0 | 100.0 | 300.0 | 1.00 ";
  }

  lemma ManualMsSecondMarkdownLine()
    ensures CellLine(Markdown, ["`sleep 0.1`", "200.0 ± 100.0", "100.0", "300.0", "1.00"])
         == "| `sleep 0.1` | 200.0 ± 100.0 | 100.0 | 300.0 | 1.00 |"
  {
    MarkdownCells("`sleep 0.1`", "200.0 ± 100.0", "100.0", "300.0", "1.00");
    ManualMsSecondMarkdownLinePadded();
  }

  lemma ManualMsSecondMarkdownLinePadded()
    ensures "|" + (" " + "`sleep 0.1`" + " ") + "|" + (" " + "200.0 ± 100.0" + " ") + "|" + (" " + "100.0" + " ") + "|" + (" " + "300.0" + " ") + "|" + (" " + "1.00" + " ") + "|"
         == "| `sleep 0.1` | 200.0 ± 100.0 | 100.0 | 300.0 | 1.00 |"
  {
    assert " " + "`sleep 0.1`" + " " == " `sleep 0.1` ";
    assert " " + "200.0 ± 100.0" + " " == " 200.0 ± 100.0 ";
    assert " " + "100.0" + " " == " 100.0 ";
    assert " " + "300.0" + " " == " 300.0 ";
    assert " " + "1.00" + " " == " 1.00 ";
    ManualMsSecondMarkdownLinePart1();
    ManualMsSecondMarkdownLinePart2();
    ManualMsSecondMarkdownLinePart3();
    ManualMsSecondMarkdownLinePart4();
    ManualMsSecondMarkdownLinePart5();
  }

  lemma ManualMsSecondOrgLinePart1()
    ensures "|" + " =sleep 0.1=  " + "|"
         == "| =sleep 0.1=  |"
  {
    assert "|" + " =sleep 0.1=  " == "| =sleep 0.1=  ";
  }

  lemma ManualMsSecondOrgLinePart2()
    ensures "| =sleep 0.1=  |" + "  200.0 ± 100.0 " + "|"
         == "| =sleep 0.1=  |  200.0 ± 100.0 |"
  {
    assert "| =sleep 0.1=  |" + "  200.0 ± 100.0 " == "| =sleep 0.1=  |  200.0 ± 100.0 ";
  }

  lemma ManualMsSecondOrgLinePart3()
    ensures "| =sleep 0.1=  |  200.0 ± 100.0 |" + "  100.0 " + "|"
         == "| =sleep 0.1=  |  200.0 ± 100.0 |  100.0 |"
  {
    assert "| =sleep 0.1=  |  200.0 ± 100.0 |" + "  100.0 " == "| =sleep 0.1=  |  200.0 ± 100.0 |  100.0 ";
  }

  lemma ManualMsSecondOrgLinePart4()
    ensures "| =sleep 0.1=  |  200.0 ± 100.0 |  100.0 |" + "  300.0 " + "|"
         == "| =sleep 0.1=  |  200.0 ± 100.0 |  100.0 |  300.0 |"
  {
    assert "| =sleep 0.1=  |  200.0 ± 100.0 |  100.0 |" + "  300.0 " == "| =sleep 0.1=  |  200.0 ± 100.0 |  100.0 |  300.0 ";
  }

  lemma ManualMsSecondOrgLinePart5()
    ensures "| =sleep 0.1=  |  200.0 ± 100.0 |  100.0 |  300.0 |" + "  1.00 " + "|"
         == "| =sleep 0.1=  |  200.0 ± 100.0 |  100.0 |  300.0 |  1.00 |"
  {
    assert "| =sleep 0.1=  |  200.0 ± 100.0 |  100.0 |  300.0 |" + "  1.00 " == "| =sleep 0.1=  |  200.0 ± 100.0 |  100.0 |  300.0 |  1.00 ";
  }

  lemma ManualMsSecondOrgLine()
    ensures CellLine(Orgmode, ["=sleep 0.1=", "200.0 ± 100.0", "100.0", "300.0", "1.00"])
         == "| =sleep 0.1=  |  200.0 ± 100.0 |  100.0 |  300.0 |  1.00 |"
  {
    OrgmodeCells("=sleep 0.1=", "200.0 ± 100.0", "100.0", "300.0", "1.00");
    ManualMsSecondOrgLinePadded();
  }

  lemma ManualMsSecondOrgLinePadded()
    ensures "|" + (" " + "=sleep 0.1=" + "  ") + "|" + ("  " + "200.0 ± 100.0" + " ") + "|" + ("  " + "100.0" + " ") + "|" + ("  " + "300.0" + " ") + "|" + ("  " + "1.00" + " ") + "|"
         == "| =sleep 0.1=  |  200.0 ± 100.0 |  100.0 |  300.0 |  1.00 |"
  {
    assert " " + "=sleep 0.1=" + "  " == " =sleep 0.1=  ";
    assert "  " + "200.0 ± 100.0" + " " == "  200.0 ± 100.0 ";
    assert "  " + "100.0" + " " == "  100.0 ";
    assert "  " + "300.0" + " " == "  300.0 ";
    assert "  " + "1.00" + " " == "  1.00 ";
    ManualMsSecondOrgLinePart1();
    ManualMsSecondOrgLinePart2();
    ManualMsSecondOrgLinePart3();
    ManualMsSecondOrgLinePart4();
    ManualMsSecondOrgLinePart5();
  }

  lemma ManualSFirstMarkdownLinePart1()
    ensures "|" + " `sleep 2` " + "|"
         == "| `sleep 2` |"
  {
    assert "|" + " `sleep 2` " == "| `sleep 2` ";
  }

  lemma ManualSFirstMarkdownLinePart2()
    ensures "| `sleep 2` |" + " 2.020 ± 0.010 " + "|"
         == "| `sleep 2` | 2.020 ± 0.010 |"
  {
    assert "| `sleep 2` |" + " 2.020 ± 0.010 " == "| `sleep 2` | 2.020 ± 0.010 ";
  }

  lemma ManualSFirstMarkdownLinePart3()
    ensures "| `sleep 2` | 2.020 ± 0.010 |" + " 2.010 " + "|"
         == "| `sleep 2` | 2.020 ± 0.010 | 2.010 |"
  {
    assert "| `sleep 2` | 2.020 ± 0.010 |" + " 2.010 " == "| `sleep 2` | 2.020 ± 0.010 | 2.010 ";
  }

  lemma ManualSFirstMarkdownLinePart4()
    ensures "| `sleep 2` | 2.020 ± 0.010 | 2.010 |" + " 2.030 " + "|"
         == "| `sleep 2` | 2.020 ± 0.010 | 2.010 | 2.030 |"
  {
    assert "| `sleep 2` | 2.020 ± 0.010 | 2.010 |" + " 2.030 " == "| `sleep 2` | 2.020 ± 0.010 | 2.010 | 2.030 ";
  }

  lemma ManualSFirstMarkdownLinePart5()
    ensures "| `sleep 2` | 2.020 ± 0.010 | 2.010 | 2.030 |" + " 16.83 ± 1.41 " + "|"
         == "| `sleep 2` | 2.020 ± 0.010 | 2.010 | 2.030 | 16.83 ± 1.41 |"
  {
    assert "| `sleep 2` | 2.020 ± 0.010 | 2.010 | 2.030 |" + " 16.83 ± 1.41 " == "| `sleep 2` | 2.020 ± 0.010 | 2.010 | 2.030 | 16.83 ± 1.41 ";
  }

  lemma ManualSFirstMarkdownLine()
    ensures CellLine(Markdown, ["`sleep 2`", "2.020 ± 0.010", "2.010", "2.030", "16.83 ± 1.41"])
         == "| `sleep 2` | 2.020 ± 0.010 | 2.010 | 2.030 | 16.83 ± 1.41 |"
  {
    MarkdownCells("`sleep 2`", "2.020 ± 0.010", "2.010", "2.030", "16.83 ± 1.41");
    ManualSFirstMarkdownLinePadded();
  }

  lemma ManualSFirstMarkdownLinePadded()
    ensures "|" + (" " + "`sleep 2`" + " ") + "|" + (" " + "2.020 ± 0.010" + " ") + "|" + (" " + "2.010" + " ") + "|" + (" " + "2.030" + " ") + "|" + (" " + "16.83 ± 1.41" + " ") + "|"
         == "| `sleep 2` | 2.020 ± 0.010 | 2.010 | 2.030 | 16.83 ± 1.41 |"
  {
    assert " " + "`sleep 2`" + " " == " `sleep 2` ";
    assert " " + "2.020 ± 0.010" + " " == " 2.020 ± 0.010 ";
    assert " " + "2.010" + " " == " 2.010 ";
    assert " " + "2.030" + " " == " 2.030 ";
    assert " " + "16.83 ± 1.41" + " " == " 16.83 ± 1.41 ";
    ManualSFirstMarkdownLinePart1();
    ManualSFirstMarkdownLinePart2();
    ManualSFirstMarkdownLinePart3();
    ManualSFirstMarkdownLinePart4();
    ManualSFirstMarkdownLinePart5();
  }

  lemma ManualSSecondMarkdownLinePart1()
    ensures "|" + " `sleep 0.1` " + "|"
         == "| `sleep 0.1` |"
  {
    assert "|" + " `sleep 0.1` " == "| `sleep 0.1` ";
  }

  lemma ManualSSecondMarkdownLinePart2()
    ensures "| `sleep 0.1` |" + " 0.120 ± 0.010 " + "|"
         == "| `sleep 0.1` | 0.120 ± 0.010 |"
  {
    assert "| `sleep 0.1` |" + " 0.120 ± 0.010 " == "| `sleep 0.1` | 0.120 ± 0.010 ";
  }

  lemma ManualSSecondMarkdownLinePart3()
    ensures "| `sleep 0.1` | 0.120 ± 0.010 |" + " 0.110 " + "|"
         == "| `sleep 0.1` | 0.120 ± 0.010 | 0.110 |"
  {
    assert "| `sleep 0.1` | 0.120 ± 0.010 |" + " 0.110 " == "| `sleep 0.1` | 0.120 ± 0.010 | 0.110 ";
  }

  lemma ManualSSecondMarkdownLinePart4()
    ensures "| `sleep 0.1` | 0.120 ± 0.010 | 0.110 |" + " 0.130 " + "|"
         == "| `sleep 0.1` | 0.120 ± 0.010 | 0.110 | 0.130 |"
  {
    assert "| `sleep 0.1` | 0.120 ± 0.010 | 0.110 |" + " 0.130 " == "| `sleep 0.1` | 0.120 ± 0.010 | 0.110 | 0.130 ";
  }

  lemma ManualSSecondMarkdownLinePart5()
    ensures "| `sleep 0.1` | 0.120 ± 0.010 | 0.110 | 0.130 |" + " 1.00 " + "|"
         == "| `sleep 0.1` | 0.120 ± 0.010 | 0.110 | 0.130 | 1.00 |"
  {
    assert "| `sleep 0.1` | 0.120 ± 0.010 | 0.110 | 0.130 |" + " 1.00 " == "| `sleep 0.1` | 0.120 ± 0.010 | 0.110 | 0.130 | 1.00 ";
  }

  lemma ManualSSecondMarkdownLine()
    ensures CellLine(Markdown, ["`sleep 0.1`", "0.120 ± 0.010", "0.110", "0.130", "1.00"])
         == "| `sleep 0.1` | 0.120 ± 0.010 | 0.110 | 0.130 | 1.00 |"
  {
    MarkdownCells("`sleep 0.1`", "0.120 ± 0.010", "0.110", "0.130", "1.00");
    ManualSSecondMarkdownLinePadded();
  }

  lemma ManualSSecondMarkdownLinePadded()
    ensures "|" + (" " + "`sleep 0.1`" + " ") + "|" + (" " + "0.120 ± 0.010" + " ") + "|" + (" " + "0.110" + " ") + "|" + (" " + "0.130" + " ") + "|" + (" " + "1.00" + " ") + "|"
         == "| `sleep 0.1` | 0.120 ± 0.010 | 0.110 | 0.130 | 1.00 |"
  {
    assert " " + "`sleep 0.1`" + " " == " `sleep 0.1` ";
    assert " " + "0.120 ± 0.010" + " " == " 0.120 ± 0.010 ";
    assert " " + "0.110" + " " == " 0.110 ";
    assert " " + "0.130" + " " == " 0.130 ";
    assert " " + "1.00" + " " == " 1.00 ";
    ManualSSecondMarkdownLinePart1();
    ManualSSecondMarkdownLinePart2();
    ManualSSecondMarkdownLinePart3();
    ManualSSecondMarkdownLinePart4();
    ManualSSecondMarkdownLinePart5();
  }

  // Asciidoc cell blocks spelled out.

  lemma MsHeaderBlock()
    ensures CellBlock(["Command", "Mean [ms]", "Min [ms]", "Max [ms]", "Relative"])
         == ["| Command ", "| Mean [ms] ", "| Min [ms] ", "| Max [ms] ", "| Relative "]
  {
    FiveCellBlock("Command", "Mean [ms]", "Min [ms]", "Max [ms]", "Relative");
    MsHeaderBlockPadded();
  }

  lemma MsHeaderBlockPadded()
    ensures ["| " + "Command" + " ", "| " + "Mean [ms]" + " ", "| " + "Min [ms]" + " ", "| " + "Max [ms]" + " ", "| " + "Relative" + " "]
         == ["| Command ", "| Mean [ms] ", "| Min [ms] ", "| Max [ms] ", "| Relative "]
  {
    assert "| " + "Command" + " " == "| Command ";
    assert "| " + "Mean [ms]" + " " == "| Mean [ms] ";
    assert "| " + "Min [ms]" + " " == "| Min [ms] ";
    assert "| " + "Max [ms]" + " " == "| Max [ms] ";
    assert "| " + "Relative" + " " == "| Relative ";
  }

  lemma SHeaderBlock()
    ensures CellBlock(["Command", "Mean [s]", "Min [s]", "Max [s]", "Relative"])
         == ["| Command ", "| Mean [s] ", "| Min [s] ", "| Max [s] ", "| Relative "]
  {
    FiveCellBlock("Command", "Mean [s]", "Min [s]", "Max [s]", "Relative");
    SHeaderBlockPadded();
  }

  lemma SHeaderBlockPadded()
    ensures ["| " + "Command" + " ", "| " + "Mean [s]" + " ", "| " + "Min [s]" + " ", "| " + "Max [s]" + " ", "| " + "Relative" + " "]
         == ["| Command ", "| Mean [s] ", "| Min [s] ", "| Max [s] ", "| Relative "]
  {
    assert "| " + "Command" + " " == "| Command ";
    assert "| " + "Mean [s]" + " " == "| Mean [s] ";
    assert "| " + "Min [s]" + " " == "| Min [s] ";
    assert "| " + "Max [s]" + " " == "| Max [s] ";
    assert "| " + "Relative" + " " == "| Relative ";
  }

  lemma AutoMsFirstBlock()
    ensures CellBlock(["`sleep 0.1`", "110.0 ± 26.5", "90.0", "140.0", "1.00"])
         == ["| `sleep 0.1` ", "| 110.0 ± 26.5 ", "| 90.0 ", "| 140.0 ", "| 1.00 "]
  {
    FiveCellBlock("`sleep 0.1`", "110.0 ± 26.5", "90.0", "140.0", "1.00");
    AutoMsFirstBlockPadded();
  }

  lemma AutoMsFirstBlockPadded()
    ensures ["| " + "`sleep 0.1`" + " ", "| " + "110.0 ± 26.5" + " ", "| " + "90.0" + " ", "| " + "140.0" + " ", "| " + "1.00" + " "]
         == ["| `sleep 0.1` ", "| 110.0 ± 26.5 ", "| 90.0 ", "| 140.0 ", "| 1.00 "]
  {
    assert "| " + "`sleep 0.1`" + " " == "| `sleep 0.1` ";
    assert "| " + "110.0 ± 26.5" + " " == "| 110.0 ± 26.5 ";
    assert "| " + "90.0" + " " == "| 90.0 ";
    assert "| " + "140.0" + " " == "| 140.0 ";
    assert "| " + "1.00" + " " == "| 1.00 ";
  }

  lemma AutoMsSecondBlock()
    ensures CellBlock(["`sleep 2`", "3000.0 ± 1000.0", "2000.0", "4000.0", "27.27 ± 11.21"])
         == ["| `sleep 2` ", "| 3000.0 ± 1000.0 ", "| 2000.0 ", "| 4000.0 ", "| 27.27 ± 11.21 "]
  {
    FiveCellBlock("`sleep 2`", "3000.0 ± 1000.0", "2000.0", "4000.0", "27.27 ± 11.21");
    AutoMsSecondBlockPadded();
  }

  lemma AutoMsSecondBlockPadded()
    ensures ["| " + "`sleep 2`" + " ", "| " + "3000.0 ± 1000.0" + " ", "| " + "2000.0" + " ", "| " + "4000.0" + " ", "| " + "27.27 ± 11.21" + " "]
         == ["| `sleep 2` ", "| 3000.0 ± 1000.0 ", "| 2000.0 ", "| 4000.0 ", "| 27.27 ± 11.21 "]
  {
    assert "| " + "`sleep 2`" + " " == "| `sleep 2` ";
    assert "| " + "3000.0 ± 1000.0" + " " == "| 3000.0 ± 1000.0 ";
    assert "| " + "2000.0" + " " == "| 2000.0 ";
    assert "| " + "4000.0" + " " == "| 4000.0 ";
    assert "| " + "27.27 ± 11.21" + " " == "| 27.27 ± 11.21 ";
  }

  lemma AutoSFirstBlock()
    ensures CellBlock(["`sleep 2`", "2.200 ± 0.100", "2.100", "2.300", "11.00 ± 5.52"])
         == ["| `sleep 2` ", "| 2.200 ± 0.100 ", "| 2.100 ", "| 2.300 ", "| 11.00 ± 5.52 "]
  {
    FiveCellBlock("`sleep 2`", "2.200 ± 0.100", "2.100", "2.300", "11.00 ± 5.52");
    AutoSFirstBlockPadded();
  }

  lemma AutoSFirstBlockPadded()
    ensures ["| " + "`sleep 2`" + " ", "| " + "2.200 ± 0.100" + " ", "| " + "2.100" + " ", "| " + "2.300" + " ", "| " + "11.00 ± 5.52" + " "]
         == ["| `sleep 2` ", "| 2.200 ± 0.100 ", "| 2.100 ", "| 2.300 ", "| 11.00 ± 5.52 "]
  {
    assert "| " + "`sleep 2`" + " " == "| `sleep 2` ";
    assert "| " + "2.200 ± 0.100" + " " == "| 2.200 ± 0.100 ";
    assert "| " + "2.100" + " " == "| 2.100 ";
    assert "| " + "2.300" + " " == "| 2.300 ";
    assert "| " + "11.00 ± 5.52" + " " == "| 11.00 ± 5.52 ";
  }

  lemma AutoSSecondBlock()
    ensures CellBlock(["`sleep 0.1`", "0.200 ± 0.100", "0.100", "0.300", "1.00"])
         == ["| `sleep 0.1` ", "| 0.200 ± 0.100 ", "| 0.100 ", "| 0.300 ", "| 1.00 "]
  {
    FiveCellBlock("`sleep 0.1`", "0.200 ± 0.100", "0.100", "0.300", "1.00");
    AutoSSecondBlockPadded();
  }

  lemma AutoSSecondBlockPadded()
    ensures ["| " + "`sleep 0.1`" + " ", "| " + "0.200 ± 0.100" + " ", "| " + "0.100" + " ", "| " + "0.300" + " ", "| " + "1.00" + " "]
         == ["| `sleep 0.1` ", "| 0.200 ± 0.100 ", "| 0.100 ", "| 0.300 ", "| 1.00 "]
  {
    assert "| " + "`sleep 0.1`" + " " == "| `sleep 0.1` ";
    assert "| " + "0.200 ± 0.100" + " " == "| 0.200 ± 0.100 ";
    assert "| " + "0.100" + " " == "| 0.100 ";
    assert "| " + "0.300" + " " == "| 0.300 ";
    assert "| " + "1.00" + " " == "| 1.00 ";
  }

  lemma ManualMsFirstBlock()
    ensures CellBlock(["`sleep 2`", "2200.0 ± 100.0", "2100.0", "2300.0", "11.00 ± 5.52"])
         == ["| `sleep 2` ", "| 2200.0 ± 100.0 ", "| 2100.0 ", "| 2300.0 ", "| 11.00 ± 5.52 "]
  {
    FiveCellBlock("`sleep 2`", "2200.0 ± 100.0", "2100.0", "2300.0", "11.00 ± 5.52");
    ManualMsFirstBlockPadded();
  }

  lemma ManualMsFirstBlockPadded()
    ensures ["| " + "`sleep 2`" + " ", "| " + "2200.0 ± 100.0" + " ", "| " + "2100.0" + " ", "| " + "2300.0" + " ", "| " + "11.00 ± 5.52" + " "]
         == ["| `sleep 2` ", "| 2200.0 ± 100.0 ", "| 2100.0 ", "| 2300.0 ", "| 11.00 ± 5.52 "]
  {
    assert "| " + "`sleep 2`" + " " == "| `sleep 2` ";
    assert "| " + "2200.0 ± 100.0" + " " == "| 2200.0 ± 100.0 ";
    assert "| " + "2100.0" + " " == "| 2100.0 ";
    assert "| " + "2300.0" + " " == "| 2300.0 ";
    assert "| " + "11.00 ± 5.52" + " " == "| 11.00 ± 5.52 ";
  }

  lemma ManualMsSecondBlock()
    ensures CellBlock(["`sleep 0.1`", "200.0 ± 100.0", "100.0", "300.0", "1.00"])
         == ["| `sleep 0.1` ", "| 200.0 ± 100.0 ", "| 100.0 ", "| 300.0 ", "| 1.00 "]
  {
    FiveCellBlock("`sleep 0.1`", "200.0 ± 100.0", "100.0", "300.0", "1.00");
    ManualMsSecondBlockPadded();
  }

  lemma ManualMsSecondBlockPadded()
    ensures ["| " + "`sleep 0.1`" + " ", "| " + "200.0 ± 100.0" + " ", "| " + "100.0" + " ", "| " + "300.0" + " ", "| " + "1.00" + " "]
         == ["| `sleep 0.1` ", "| 200.0 ± 100.0 ", "| 100.0 ", "| 300.0 ", "| 1.00 "]
  {
    assert "| " + "`sleep 0.1`" + " " == "| `sleep 0.1` ";
    assert "| " + "200.0 ± 100.0" + " " == "| 200.0 ± 100.0 ";
    assert "| " + "100.0" + " " == "| 100.0 ";
    assert "| " + "300.0" + " " == "| 300.0 ";
    assert "| " + "1.00" + " " == "| 1.00 ";
  }

  lemma ManualSFirstBlock()
    ensures CellBlock(["`sleep 2`", "2.020 ± 0.010", "2.010", "2.030", "16.83 ± 1.41"])
         == ["| `sleep 2` ", "| 2.020 ± 0.010 ", "| 2.010 ", "| 2.030 ", "| 16.83 ± 1.41 "]
  {
    FiveCellBlock("`sleep 2`", "2.020 ± 0.010", "2.010", "2.030", "16.83 ± 1.41");
    ManualSFirstBlockPadded();
  }

  lemma ManualSFirstBlockPadded()
    ensures ["| " + "`sleep 2`" + " ", "| " + "2.020 ± 0.010" + " ", "| " + "2.010" + " ", "| " + "2.030" + " ", "| " + "16.83 ± 1.41" + " "]
         == ["| `sleep 2` ", "| 2.020 ± 0.010 ", "| 2.010 ", "| 2.030 ", "| 16.83 ± 1.41 "]
  {
    assert "| " + "`sleep 2`" + " " == "| `sleep 2` ";
    assert "| " + "2.020 ± 0.010" + " " == "| 2.020 ± 0.010 ";
    assert "| " + "2.010" + " " == "| 2.010 ";
    assert "| " + "2.030" + " " == "| 2.030 ";
    assert "| " + "16.83 ± 1.41" + " " == "| 16.83 ± 1.41 ";
  }

  lemma ManualSSecondBlock()
    ensures CellBlock(["`sleep 0.1`", "0.120 ± 0.010", "0.110", "0.130", "1.00"])
         == ["| `sleep 0.1` ", "| 0.120 ± 0.010 ", "| 0.110 ", "| 0.130 ", "| 1.00 "]
  {
    FiveCellBlock("`sleep 0.1`", "0.120 ± 0.010", "0.110", "0.130", "1.00");
    ManualSSecondBlockPadded();
  }

  lemma ManualSSecondBlockPadded()
    ensures ["| " + "`sleep 0.1`" + " ", "| " + "0.120 ± 0.010" + " ", "| " + "0.110" + " ", "| " + "0.130" + " ", "| " + "1.00" + " "]
         == ["| `sleep 0.1` ", "| 0.120 ± 0.010 ", "| 0.110 ", "| 0.130 ", "| 1.00 "]
  {
    assert "| " + "`sleep 0.1`" + " " == "| `sleep 0.1` ";
    assert "| " + "0.120 ± 0.010" + " " == "| 0.120 ± 0.010 ";
    assert "| " + "0.110" + " " == "| 0.110 ";
    assert "| " + "0.130" + " " == "| 0.130 ";
    assert "| " + "1.00" + " " == "| 1.00 ";
  }
}
