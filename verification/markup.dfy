/** The three table formats: one header row of five labelled columns, then one
    row per result, each format with its own line grammar. */
module Markup {
  import opened Wrappers
  import opened Text
  import opened Units

  datatype Format = Markdown | Asciidoc | Orgmode

  /** One result's formatted cells; the command is still bare, before the format marks it up. */
  datatype Row = Row(command: string, mean: string, min: string, max: string, relative: string)

  /** What a table reads back as: the header cells and the body rows. */
  datatype Table = Table(header: seq<string>, rows: seq<Row>)

  /** The five column labels: the three time columns name the unit, and no label
      holds a `|` or a line break. */
  function HeaderCells(u: Unit): (header: seq<string>)
    ensures |header| == 5 && PlainCells(header)
  {
    var unit := " [" + ShortName(u) + "]";
    var header := ["Command", "Mean" + unit, "Min" + unit, "Max" + unit, "Relative"];
    assert PlainCell(unit);
    assert PlainCell(header[1]) && PlainCell(header[2]) && PlainCell(header[3]);
    header
  }

  /** The command as the format marks it up: a code span, or org-mode's verbatim markers. */
  function CommandCell(f: Format, command: string): (cell: string)
    ensures Unwrap(cell, CommandMark(f), CommandMark(f)) == Some(command)
  {
    var mark := CommandMark(f);
    UnwrapWrapped(command, mark, mark);
    mark + command + mark
  }

  function CommandMark(f: Format): string
  {
    if f == Orgmode then "=" else "`"
  }

  function BodyCells(f: Format, row: Row): (cells: seq<string>)
    ensures |cells| == 5
  {
    [CommandCell(f, row.command), row.mean, row.min, row.max, row.relative]
  }

  /** The cells as a `|`-delimited line: Markdown pads every cell with one space on
      each side; org-mode pads the first cell with one space before and two after,
      and every other cell with two spaces before and one after. */
  function CellLine(f: Format, cells: seq<string>): string
    requires f != Asciidoc
    requires |cells| >= 1
  {
    Join([""] + LinePieces(f, cells) + [""], '|')
  }

  function LinePieces(f: Format, cells: seq<string>): (pieces: seq<string>)
    requires f != Asciidoc
    requires |cells| >= 1
    ensures |pieces| == |cells|
  {
    if f == Markdown then Pad(cells, " ", " ")
    else Pad(cells[..1], " ", "  ") + Pad(cells[1..], "  ", " ")
  }

  /** The line under the header: Markdown marks the command column left-aligned and
      the four number columns right-aligned; org-mode draws a rule across the five columns. */
  function Divider(f: Format): string
    requires f != Asciidoc
  {
    if f == Markdown then "|:---|---:|---:|---:|---:|" else "|--+--+--+--+--|"
  }

  /** The Asciidoc column specification with the same alignments. */
  const AsciidocColumns: string := "[cols=\"<,>,>,>,>\"]"

  const AsciidocDelimiter: string := "|==="

  /** In Asciidoc every cell is a line of its own, `| ` before it and a space after it. */
  function CellBlock(cells: seq<string>): (block: seq<string>)
  {
    Pad(cells, "| ", " ")
  }

  /** The body lines: one line per row, or in Asciidoc a blank line and a block of cell lines. */
  function BodyLines(f: Format, rows: seq<Row>): seq<string>
  {
    if |rows| == 0 then []
    else if f == Asciidoc then [""] + CellBlock(BodyCells(f, rows[0])) + BodyLines(f, rows[1..])
    else [CellLine(f, BodyCells(f, rows[0]))] + BodyLines(f, rows[1..])
  }

  /** Every line of the table, in order. */
  function Lines(f: Format, u: Unit, rows: seq<Row>): seq<string>
  {
    Layout(f, HeaderCells(u), rows)
  }

  function Layout(f: Format, header: seq<string>, rows: seq<Row>): seq<string>
    requires |header| >= 1
  {
    if f == Asciidoc then
      [AsciidocColumns, AsciidocDelimiter] + CellBlock(header)
      + BodyLines(f, rows) + [AsciidocDelimiter]
    else
      [CellLine(f, header), Divider(f)] + BodyLines(f, rows)
  }

  /** The table as text, every line ended by a newline. */
  function Render(f: Format, u: Unit, rows: seq<Row>): string
  {
    Unlines(Lines(f, u, rows))
  }

  // Reading tables back.

  function DecodeCellLine(f: Format, line: string): Option<seq<string>>
    requires f != Asciidoc
  {
    var pieces := Split(line, '|');
    if |pieces| < 3 || pieces[0] != "" || pieces[|pieces| - 1] != "" then None
    else
      var inner := pieces[1..|pieces| - 1];
      if f == Markdown then UnwrapAll(inner, " ", " ")
      else
        match (Unwrap(inner[0], " ", "  "), UnwrapAll(inner[1..], "  ", " "))
        case (Some(c), Some(cs)) => Some([c] + cs)
        case _ => None
  }

  /** Five body cells back into a row, taking the markup off the command. */
  function DecodeRow(f: Format, cells: seq<string>): Option<Row>
  {
    if |cells| != 5 then None
    else
      var mark := CommandMark(f);
      match Unwrap(cells[0], mark, mark)
      case Some(command) => Some(Row(command, cells[1], cells[2], cells[3], cells[4]))
      case None => None
  }

  function DecodeBody(f: Format, lines: seq<string>): Option<seq<Row>>
    decreases |lines|
  {
    if |lines| == 0 then Some([])
    else if f == Asciidoc then
      if |lines| < 6 || lines[0] != "" then None
      else
        match (UnwrapAll(lines[1..6], "| ", " "), DecodeBody(f, lines[6..]))
        case (Some(cells), Some(rest)) =>
          (match DecodeRow(f, cells)
           case Some(row) => Some([row] + rest)
           case None => None)
        case _ => None
    else
      match (DecodeCellLine(f, lines[0]), DecodeBody(f, lines[1..]))
      case (Some(cells), Some(rest)) =>
        (match DecodeRow(f, cells)
         case Some(row) => Some([row] + rest)
         case None => None)
      case _ => None
  }

  /** Reads the text back into a table, or `None` when it does not follow the
      grammar of `f`: every line ends with a newline, and the lines are those
      `Lines` produces for some header and rows. */
  function Decode(f: Format, text: string): Option<Table>
  {
    var lines := Split(text, '\n');
    if lines[|lines| - 1] != "" then None
    else DecodeLines(f, lines[..|lines| - 1])
  }

  function DecodeLines(f: Format, ls: seq<string>): Option<Table>
  {
    if f == Asciidoc then
      if |ls| < 8 || ls[0] != AsciidocColumns || ls[1] != AsciidocDelimiter
         || ls[|ls| - 1] != AsciidocDelimiter then None
      else
        match (UnwrapAll(ls[2..7], "| ", " "), DecodeBody(f, ls[7..|ls| - 1]))
        case (Some(header), Some(rows)) => Some(Table(header, rows))
        case _ => None
    else
      if |ls| < 2 || ls[1] != Divider(f) then None
      else
        match (DecodeCellLine(f, ls[0]), DecodeBody(f, ls[2..]))
        case (Some(header), Some(rows)) => Some(Table(header, rows))
        case _ => None
  }

  // Round trip.

  /** A cell that can stand in every format: no `|` and no line break. */
  predicate PlainCell(c: string)
  {
    '|' !in c && '\n' !in c
  }

  predicate PlainRow(row: Row)
  {
    PlainCell(row.command) && PlainCell(row.mean) && PlainCell(row.min)
    && PlainCell(row.max) && PlainCell(row.relative)
  }

  predicate PlainRows(rows: seq<Row>)
  {
    forall i :: 0 <= i < |rows| ==> PlainRow(rows[i])
  }

  predicate PlainCells(cells: seq<string>)
  {
    forall i :: 0 <= i < |cells| ==> PlainCell(cells[i])
  }

  /** The header names its unit: two units give the same header only when they are the same unit. */
  lemma HeaderNamesUnit(u: Unit, v: Unit)
    ensures HeaderCells(u) == HeaderCells(v) <==> u == v
  {
    if u != v {
      assert |HeaderCells(u)[1]| != |HeaderCells(v)[1]|;
    }
  }

  lemma BodyCellsPlain(f: Format, row: Row)
    requires PlainRow(row)
    ensures PlainCells(BodyCells(f, row))
  {
  }

  /** The padded pieces of a delimited line hold no `|` and no line break. */
  lemma LinePiecesPlain(f: Format, cells: seq<string>)
    requires f != Asciidoc
    requires |cells| >= 1 && PlainCells(cells)
    ensures var pieces := [""] + LinePieces(f, cells) + [""];
            Free(pieces, '|') && Free(pieces, '\n')
  {
    var pieces := [""] + LinePieces(f, cells) + [""];
    forall i | 0 <= i < |pieces|
      ensures '|' !in pieces[i] && '\n' !in pieces[i]
    {
      if 0 < i < |pieces| - 1 {
        if f == Markdown {
          assert pieces[i] == " " + cells[i - 1] + " ";
        } else if i == 1 {
          assert pieces[i] == " " + cells[0] + "  ";
        } else {
          assert pieces[i] == Pad(cells[1..], "  ", " ")[i - 2];
        }
      }
    }
  }

  /** A delimited line of plain cells reads back as those cells. */
  lemma DecodeCellLineRoundTrip(f: Format, cells: seq<string>)
    requires f != Asciidoc
    requires |cells| >= 1 && PlainCells(cells)
    ensures DecodeCellLine(f, CellLine(f, cells)) == Some(cells)
  {
    if f == Markdown {
      MarkdownLineRoundTrip(cells);
    } else {
      OrgmodeLineRoundTrip(cells);
    }
  }

  lemma MarkdownLineRoundTrip(cells: seq<string>)
    requires |cells| >= 1 && PlainCells(cells)
    ensures DecodeCellLine(Markdown, CellLine(Markdown, cells)) == Some(cells)
  {
    var line := CellLine(Markdown, cells);
    CellLineSplits(Markdown, cells);
    var pieces := Split(line, '|');
    assert pieces[1..|pieces| - 1] == LinePieces(Markdown, cells);
    UnwrapLinePieces(Markdown, cells);
  }

  lemma OrgmodeLineRoundTrip(cells: seq<string>)
    requires |cells| >= 1 && PlainCells(cells)
    ensures DecodeCellLine(Orgmode, CellLine(Orgmode, cells)) == Some(cells)
  {
    var line := CellLine(Orgmode, cells);
    CellLineSplits(Orgmode, cells);
    var pieces := Split(line, '|');
    var inner := pieces[1..|pieces| - 1];
    assert inner == LinePieces(Orgmode, cells);
    UnwrapLinePieces(Orgmode, cells);
    assert inner[0] == LinePieces(Orgmode, cells)[0] && inner[1..] == LinePieces(Orgmode, cells)[1..];
    assert [cells[0]] + cells[1..] == cells;
  }

  /** A delimited line of plain cells splits at `|` into its padded pieces and an
      empty piece at either end. */
  lemma CellLineSplits(f: Format, cells: seq<string>)
    requires f != Asciidoc
    requires |cells| >= 1 && PlainCells(cells)
    ensures Split(CellLine(f, cells), '|') == [""] + LinePieces(f, cells) + [""]
  {
    LinePiecesPlain(f, cells);
    SplitJoin([""] + LinePieces(f, cells) + [""], '|');
  }

  /** Each piece of a cell line gives its cell back once its padding is taken off. */
  lemma UnwrapLinePieces(f: Format, cells: seq<string>)
    requires f != Asciidoc && |cells| >= 1
    ensures f == Markdown ==> UnwrapAll(LinePieces(f, cells), " ", " ") == Some(cells)
    ensures f != Markdown ==>
              && Unwrap(LinePieces(f, cells)[0], " ", "  ") == Some(cells[0])
              && UnwrapAll(LinePieces(f, cells)[1..], "  ", " ") == Some(cells[1..])
  {
    var pieces := LinePieces(f, cells);
    if f == Markdown {
      UnwrapAllPad(cells, " ", " ");
    } else {
      assert pieces[0] == " " + cells[0] + "  ";
      UnwrapWrapped(cells[0], " ", "  ");
      assert pieces[1..] == Pad(cells[1..], "  ", " ");
      UnwrapAllPad(cells[1..], "  ", " ");
    }
  }

  lemma DecodeRowRoundTrip(f: Format, row: Row)
    ensures DecodeRow(f, BodyCells(f, row)) == Some(row)
  {
    UnwrapWrapped(row.command, CommandMark(f), CommandMark(f));
  }

  lemma {:induction false} DecodeBodyRoundTrip(f: Format, rows: seq<Row>)
    requires PlainRows(rows)
    ensures DecodeBody(f, BodyLines(f, rows)) == Some(rows)
    decreases |rows|
  {
    if |rows| > 0 {
      DecodeBodyRoundTrip(f, rows[1..]);
      DecodeRowRoundTrip(f, rows[0]);
      assert [rows[0]] + rows[1..] == rows;
      if f == Asciidoc {
        DecodeBlockStep(rows);
      } else {
        DecodeLineStep(f, rows);
      }
    }
  }

  /** The first Asciidoc block reads back as the first row's cells, and the rest follows it. */
  lemma DecodeBlockStep(rows: seq<Row>)
    requires |rows| > 0
    ensures var lines := BodyLines(Asciidoc, rows);
            && |lines| >= 6 && lines[0] == ""
            && UnwrapAll(lines[1..6], "| ", " ") == Some(BodyCells(Asciidoc, rows[0]))
            && lines[6..] == BodyLines(Asciidoc, rows[1..])
  {
    var lines := BodyLines(Asciidoc, rows);
    var cells := BodyCells(Asciidoc, rows[0]);
    assert lines[1..6] == CellBlock(cells);
    assert lines[6..] == BodyLines(Asciidoc, rows[1..]);
    UnwrapAllPad(cells, "| ", " ");
  }

  /** The first line reads back as the first row's cells, and the rest follows it. */
  lemma DecodeLineStep(f: Format, rows: seq<Row>)
    requires f != Asciidoc
    requires |rows| > 0 && PlainRow(rows[0])
    ensures var lines := BodyLines(f, rows);
            && |lines| >= 1
            && DecodeCellLine(f, lines[0]) == Some(BodyCells(f, rows[0]))
            && lines[1..] == BodyLines(f, rows[1..])
  {
    BodyCellsPlain(f, rows[0]);
    DecodeCellLineRoundTrip(f, BodyCells(f, rows[0]));
    assert BodyLines(f, rows)[1..] == BodyLines(f, rows[1..]);
  }

  lemma {:induction false} BodyLinesFree(f: Format, rows: seq<Row>)
    requires PlainRows(rows)
    ensures Free(BodyLines(f, rows), '\n')
    decreases |rows|
  {
    if |rows| > 0 {
      BodyLinesFree(f, rows[1..]);
      BodyCellsPlain(f, rows[0]);
      var cells := BodyCells(f, rows[0]);
      if f == Asciidoc {
        assert Free(CellBlock(cells), '\n') by {
          forall i | 0 <= i < |cells|
            ensures '\n' !in CellBlock(cells)[i]
          {
            assert CellBlock(cells)[i] == "| " + cells[i] + " ";
          }
        }
      } else {
        CellLineFree(f, cells);
      }
    }
  }

  lemma CellLineFree(f: Format, cells: seq<string>)
    requires f != Asciidoc
    requires |cells| >= 1 && PlainCells(cells)
    ensures '\n' !in CellLine(f, cells)
  {
    LinePiecesPlain(f, cells);
    JoinFree([""] + LinePieces(f, cells) + [""], '|', '\n');
  }

  /** Every table reads back as the header it was given and the rows it was given,
      provided no cell holds a `|` or a line break. */
  lemma DecodeRender(f: Format, u: Unit, rows: seq<Row>)
    requires PlainRows(rows)
    ensures Decode(f, Render(f, u, rows)) == Some(Table(HeaderCells(u), rows))
  {
    var ls := Lines(f, u, rows);
    BodyLinesFree(f, rows);
    DecodeBodyRoundTrip(f, rows);
    if f == Asciidoc {
      DecodeLinesAsciidoc(HeaderCells(u), rows);
    } else {
      DecodeLinesDelimited(f, HeaderCells(u), rows);
    }
    SplitUnlines(ls);
    assert (ls + [""])[..|ls|] == ls;
  }

  /** No line of an Asciidoc table breaks, given plain header cells and body lines without breaks. */
  lemma AsciidocLayoutFree(header: seq<string>, rows: seq<Row>)
    requires |header| >= 1 && PlainCells(header)
    requires Free(BodyLines(Asciidoc, rows), '\n')
    ensures Free(Layout(Asciidoc, header, rows), '\n')
  {
    var top := [AsciidocColumns, AsciidocDelimiter];
    assert Free(top, '\n');
    assert Free(CellBlock(header), '\n') by {
      forall i | 0 <= i < |header|
        ensures '\n' !in CellBlock(header)[i]
      {
        assert CellBlock(header)[i] == "| " + header[i] + " ";
      }
    }
    FreeConcat(top, CellBlock(header), '\n');
    FreeConcat(top + CellBlock(header), BodyLines(Asciidoc, rows), '\n');
    FreeConcat(top + CellBlock(header) + BodyLines(Asciidoc, rows), [AsciidocDelimiter], '\n');
  }

  lemma DecodeLinesAsciidoc(header: seq<string>, rows: seq<Row>)
    requires |header| == 5 && PlainCells(header)
    requires Free(BodyLines(Asciidoc, rows), '\n')
    requires DecodeBody(Asciidoc, BodyLines(Asciidoc, rows)) == Some(rows)
    ensures Free(Layout(Asciidoc, header, rows), '\n')
    ensures DecodeLines(Asciidoc, Layout(Asciidoc, header, rows)) == Some(Table(header, rows))
  {
    AsciidocLayoutFree(header, rows);
    AsciidocLayoutParts(header, rows);
    UnwrapAllPad(header, "| ", " ");
  }

  lemma AsciidocLayoutParts(header: seq<string>, rows: seq<Row>)
    requires |header| == 5
    ensures var ls := Layout(Asciidoc, header, rows);
            |ls| >= 8 && ls[0] == AsciidocColumns && ls[1] == AsciidocDelimiter
            && ls[|ls| - 1] == AsciidocDelimiter
            && ls[2..7] == CellBlock(header) && ls[7..|ls| - 1] == BodyLines(Asciidoc, rows)
  {
    var ls := Layout(Asciidoc, header, rows);
    assert ls[2..7] == CellBlock(header);
    assert ls[7..|ls| - 1] == BodyLines(Asciidoc, rows);
  }

  lemma DecodeLinesDelimited(f: Format, header: seq<string>, rows: seq<Row>)
    requires f != Asciidoc
    requires |header| >= 1 && PlainCells(header)
    requires Free(BodyLines(f, rows), '\n')
    requires DecodeBody(f, BodyLines(f, rows)) == Some(rows)
    ensures Free(Layout(f, header, rows), '\n')
    ensures DecodeLines(f, Layout(f, header, rows)) == Some(Table(header, rows))
  {
    var top := [CellLine(f, header), Divider(f)];
    assert Layout(f, header, rows) == top + BodyLines(f, rows);
    CellLineFree(f, header);
    assert '\n' !in Divider(f);
    FreeConcat(top, BodyLines(f, rows), '\n');
    DecodeDelimited(f, header, rows);
  }

  lemma DecodeDelimited(f: Format, header: seq<string>, rows: seq<Row>)
    requires f != Asciidoc
    requires |header| >= 1 && PlainCells(header)
    requires DecodeBody(f, BodyLines(f, rows)) == Some(rows)
    ensures DecodeLines(f, Layout(f, header, rows)) == Some(Table(header, rows))
  {
    var ls := Layout(f, header, rows);
    assert ls[0] == CellLine(f, header) && ls[1] == Divider(f);
    assert ls[2..] == BodyLines(f, rows);
    DecodeCellLineRoundTrip(f, header);
  }

  /** The lines of a two-row Asciidoc table. */
  lemma TwoRowAsciidoc(u: Unit, first: Row, second: Row)
    ensures Lines(Asciidoc, u, [first, second])
         == [AsciidocColumns, AsciidocDelimiter] + CellBlock(HeaderCells(u))
            + [""] + CellBlock(BodyCells(Asciidoc, first)) + [""] + CellBlock(BodyCells(Asciidoc, second))
            + [AsciidocDelimiter]
  {
    TwoRowAsciidocLayout(HeaderCells(u), first, second);
  }

  lemma TwoRowAsciidocLayout(header: seq<string>, first: Row, second: Row)
    requires |header| >= 1
    ensures Layout(Asciidoc, header, [first, second])
         == [AsciidocColumns, AsciidocDelimiter] + CellBlock(header)
            + [""] + CellBlock(BodyCells(Asciidoc, first)) + [""] + CellBlock(BodyCells(Asciidoc, second))
            + [AsciidocDelimiter]
  {
    var top := [AsciidocColumns, AsciidocDelimiter] + CellBlock(header);
    var one := [""] + CellBlock(BodyCells(Asciidoc, first));
    var two := [""] + CellBlock(BodyCells(Asciidoc, second));
    TwoRowBody(Asciidoc, first, second, one, two);
    assert Layout(Asciidoc, header, [first, second]) == top + (one + two) + [AsciidocDelimiter];
  }

  /** The same lines one by one: the two heading lines, the five header cells, and
      each row's five cells after a blank line, then the closing delimiter. */
  lemma TwoRowAsciidocLines(u: Unit, first: Row, second: Row)
    ensures var h := CellBlock(HeaderCells(u));
            var a := CellBlock(BodyCells(Asciidoc, first));
            var b := CellBlock(BodyCells(Asciidoc, second));
            Lines(Asciidoc, u, [first, second])
            == [AsciidocColumns, AsciidocDelimiter, h[0], h[1], h[2], h[3], h[4],
                "", a[0], a[1], a[2], a[3], a[4], "", b[0], b[1], b[2], b[3], b[4], AsciidocDelimiter]
  {
    TwoRowAsciidoc(u, first, second);
    Blocks(AsciidocColumns, AsciidocDelimiter, "", CellBlock(HeaderCells(u)),
           CellBlock(BodyCells(Asciidoc, first)), CellBlock(BodyCells(Asciidoc, second)));
  }

  lemma Blocks<T>(x: T, y: T, e: T, a: seq<T>, b: seq<T>, c: seq<T>)
    requires |a| == 5 && |b| == 5 && |c| == 5
    ensures [x, y] + a + [e] + b + [e] + c + [y]
         == [x, y, a[0], a[1], a[2], a[3], a[4], e, b[0], b[1], b[2], b[3], b[4],
             e, c[0], c[1], c[2], c[3], c[4], y]
  {
  }

  /** The lines of a two-row Markdown or org-mode table. */
  lemma TwoRowDelimited(f: Format, u: Unit, first: Row, second: Row)
    requires f != Asciidoc
    ensures Lines(f, u, [first, second])
         == [CellLine(f, HeaderCells(u)), Divider(f),
             CellLine(f, BodyCells(f, first)), CellLine(f, BodyCells(f, second))]
  {
    TwoRowLayout(f, HeaderCells(u), first, second);
  }

  lemma TwoRowLayout(f: Format, header: seq<string>, first: Row, second: Row)
    requires f != Asciidoc && |header| >= 1
    ensures Layout(f, header, [first, second])
         == [CellLine(f, header), Divider(f),
             CellLine(f, BodyCells(f, first)), CellLine(f, BodyCells(f, second))]
  {
    var one := [CellLine(f, BodyCells(f, first))];
    var two := [CellLine(f, BodyCells(f, second))];
    var top := [CellLine(f, header), Divider(f)];
    TwoRowBody(f, first, second, one, two);
    assert Layout(f, header, [first, second]) == top + (one + two);
    assert top + (one + two) == [top[0], top[1], one[0], two[0]];
  }

  /** The body of two rows: the first row's lines, then the second's. */
  lemma TwoRowBody(f: Format, first: Row, second: Row, one: seq<string>, two: seq<string>)
    requires one == BodyLines(f, [first])
    requires two == BodyLines(f, [second])
    ensures BodyLines(f, [first, second]) == one + two
  {
    var rows := [first, second];
    assert rows[1..] == [second];
    BodyLinesOne(f, first);
    BodyLinesOne(f, second);
  }

  /** The body of one row. */
  lemma BodyLinesOne(f: Format, row: Row)
    ensures BodyLines(f, [row])
         == if f == Asciidoc then [""] + CellBlock(BodyCells(f, row)) else [CellLine(f, BodyCells(f, row))]
  {
    assert [row][1..] == [];
  }

  // Five-column lines spelled out, one separator after another.

  /** A line of five cells: the five padded pieces, each between two bars. */
  lemma FiveCellLine(f: Format, cells: seq<string>)
    requires f != Asciidoc && |cells| == 5
    ensures var p := LinePieces(f, cells);
            CellLine(f, cells) == "|" + p[0] + "|" + p[1] + "|" + p[2] + "|" + p[3] + "|" + p[4] + "|"
  {
    var p := LinePieces(f, cells);
    assert [""] + p + [""] == ["", p[0], p[1], p[2], p[3], p[4], ""];
    JoinFive(p[0], p[1], p[2], p[3], p[4]);
  }

  lemma JoinFive(a: string, b: string, c: string, d: string, e: string)
    ensures Join(["", a, b, c, d, e, ""], '|') == "|" + a + "|" + b + "|" + c + "|" + d + "|" + e + "|"
  {
    JoinBack([""], a, '|');
    assert Join(["", a], '|') == "|" + a;
    JoinBack(["", a], b, '|');
    assert ["", a] + [b] == ["", a, b];
    assert Join(["", a, b], '|') == "|" + a + "|" + b;
    JoinBack(["", a, b], c, '|');
    assert ["", a, b] + [c] == ["", a, b, c];
    assert Join(["", a, b, c], '|') == "|" + a + "|" + b + "|" + c;
    JoinBack(["", a, b, c], d, '|');
    assert ["", a, b, c] + [d] == ["", a, b, c, d];
    assert Join(["", a, b, c, d], '|') == "|" + a + "|" + b + "|" + c + "|" + d;
    JoinBack(["", a, b, c, d], e, '|');
    assert ["", a, b, c, d] + [e] == ["", a, b, c, d, e];
    assert Join(["", a, b, c, d, e], '|') == "|" + a + "|" + b + "|" + c + "|" + d + "|" + e;
    JoinBack(["", a, b, c, d, e], "", '|');
    assert ["", a, b, c, d, e] + [""] == ["", a, b, c, d, e, ""];
  }

  /** A Markdown line of five cells: each cell between a space and a space, and bars around. */
  lemma MarkdownCells(a: string, b: string, c: string, d: string, e: string)
    ensures CellLine(Markdown, [a, b, c, d, e])
         == "|" + (" " + a + " ") + "|" + (" " + b + " ") + "|" + (" " + c + " ")
            + "|" + (" " + d + " ") + "|" + (" " + e + " ") + "|"
  {
    FiveCellLine(Markdown, [a, b, c, d, e]);
    MarkdownPieces(a, b, c, d, e);
  }

  /** An org-mode line of five cells: the first cell between one space and two, every
      other between two spaces and one. */
  lemma OrgmodeCells(a: string, b: string, c: string, d: string, e: string)
    ensures CellLine(Orgmode, [a, b, c, d, e])
         == "|" + (" " + a + "  ") + "|" + ("  " + b + " ") + "|" + ("  " + c + " ")
            + "|" + ("  " + d + " ") + "|" + ("  " + e + " ") + "|"
  {
    FiveCellLine(Orgmode, [a, b, c, d, e]);
    OrgmodePieces(a, b, c, d, e);
  }

  /** An Asciidoc block of five cells, one `| `-prefixed line per cell. */
  lemma FiveCellBlock(a: string, b: string, c: string, d: string, e: string)
    ensures CellBlock([a, b, c, d, e]) == ["| " + a + " ", "| " + b + " ", "| " + c + " ", "| " + d + " ", "| " + e + " "]
  {
  }

  /** Markdown pads every cell with one space on each side. */
  lemma MarkdownPieces(a: string, b: string, c: string, d: string, e: string)
    ensures LinePieces(Markdown, [a, b, c, d, e])
         == [" " + a + " ", " " + b + " ", " " + c + " ", " " + d + " ", " " + e + " "]
  {
  }

  /** Org-mode pads the first cell with one space and two, the others with two and one. */
  lemma OrgmodePieces(a: string, b: string, c: string, d: string, e: string)
    ensures LinePieces(Orgmode, [a, b, c, d, e])
         == [" " + a + "  ", "  " + b + " ", "  " + c + " ", "  " + d + " ", "  " + e + " "]
  {
    var cells := [a, b, c, d, e];
    assert cells[..1] == [a] && cells[1..] == [b, c, d, e];
  }
}
