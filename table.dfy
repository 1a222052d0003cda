/**
 * What Formatter.PrintTable produces (internal/output/formatter.go), as
 * values: the column widths, the padded cells, the lines of table mode and
 * the header-to-cell records of the structured modes, with the properties
 * the renderer promises (widths are maxima, every line has the same column
 * boundaries, records keep the header-to-cell pairing).
 *
 * A width is the length of the cell string as given, colour escapes
 * included; cells are taken to be ASCII, so byte length and the rune count
 * used for padding coincide.
 */
module Table {
  import opened Common

  // ---------------------------------------------------------------------
  // Column widths
  // ---------------------------------------------------------------------

  function HeaderWidths(headers: seq<string>): (w: seq<nat>)
    ensures |w| == |headers|
    ensures forall i :: 0 <= i < |headers| ==> w[i] == |headers[i]|
  {
    seq(|headers|, i requires 0 <= i < |headers| => |headers[i]|)
  }

  /** One row's effect on the widths: a cell inside the header range that is longer widens its column. */
  function Widen(w: seq<nat>, row: seq<string>): (r: seq<nat>)
    ensures |r| == |w|
    ensures forall i :: 0 <= i < |w| ==>
              r[i] == if i < |row| && |row[i]| > w[i] then |row[i]| else w[i]
  {
    seq(|w|, i requires 0 <= i < |w| => if i < |row| && |row[i]| > w[i] then |row[i]| else w[i])
  }

  /** The widths after the header pass and one pass per row, in row order. */
  function Widths(headers: seq<string>, rows: seq<seq<string>>): (w: seq<nat>)
    ensures |w| == |headers|
  {
    if rows == [] then HeaderWidths(headers)
    else Widen(Widths(headers, rows[..|rows| - 1]), rows[|rows| - 1])
  }

  /**
   * Each width is the maximum of the header's length and the lengths of the
   * cells of that column; cells beyond the header count play no part.
   */
  lemma {:induction false} WidthsAreMaxima(headers: seq<string>, rows: seq<seq<string>>)
    ensures forall i :: 0 <= i < |headers| ==> Widths(headers, rows)[i] >= |headers[i]|
    ensures forall k, i :: 0 <= k < |rows| && 0 <= i < |headers| && i < |rows[k]| ==>
              Widths(headers, rows)[i] >= |rows[k][i]|
    ensures forall i :: 0 <= i < |headers| ==>
              Widths(headers, rows)[i] == |headers[i]| ||
              exists k :: 0 <= k < |rows| && i < |rows[k]| && Widths(headers, rows)[i] == |rows[k][i]|
  {
    if rows != [] {
      var front := rows[..|rows| - 1];
      WidthsAreMaxima(headers, front);
      var w0, w := Widths(headers, front), Widths(headers, rows);
      forall k, i | 0 <= k < |rows| && 0 <= i < |headers| && i < |rows[k]|
        ensures w[i] >= |rows[k][i]|
      {
        if k < |rows| - 1 {
          assert rows[k] == front[k];
        }
      }
      forall i | 0 <= i < |headers|
        ensures w[i] == |headers[i]| || exists k :: 0 <= k < |rows| && i < |rows[k]| && w[i] == |rows[k][i]|
      {
        if w[i] != w0[i] {
          assert w[i] == |rows[|rows| - 1][i]|;
        } else if w0[i] != |headers[i]| {
          var k :| 0 <= k < |front| && i < |front[k]| && w0[i] == |front[k][i]|;
          assert rows[k] == front[k];
        }
      }
    }
  }

  // ---------------------------------------------------------------------
  // Padding and joining
  // ---------------------------------------------------------------------

  /** fmt's "%-*s": left-justified, padded with spaces to at least `w`, never cut. */
  function PadRight(s: string, w: nat): (r: string)
    ensures |r| == if |s| >= w then |s| else w
    ensures r[..|s|] == s
    ensures forall i :: |s| <= i < |r| ==> r[i] == ' '
  {
    if |s| >= w then s else s + Repeat(' ', w - |s|)
  }

  /** Cells written one after the other with a two-space gutter between neighbours. */
  function Join(cells: seq<string>): string {
    if |cells| == 0 then ""
    else if |cells| == 1 then cells[0]
    else Join(cells[..|cells| - 1]) + "  " + cells[|cells| - 1]
  }

  /** Writing one more cell extends the line by a gutter and the cell. */
  lemma JoinSnoc(cells: seq<string>, i: nat)
    requires i < |cells|
    ensures Join(cells[..i + 1]) == (if i == 0 then "" else Join(cells[..i]) + "  ") + cells[i]
  {
    assert cells[..i + 1][..i] == cells[..i];
  }

  /** A line is the padded cells it was built from, in order. */
  function HeaderCells(headers: seq<string>, w: seq<nat>): (cells: seq<string>)
    requires |w| == |headers|
    ensures |cells| == |headers|
  {
    seq(|headers|, i requires 0 <= i < |headers| => PadRight(headers[i], w[i]))
  }

  function SeparatorCells(w: seq<nat>): (cells: seq<string>)
    ensures |cells| == |w|
  {
    seq(|w|, i requires 0 <= i < |w| => Repeat('-', w[i]))
  }

  /** Cells inside the header range are padded; cells past it are written as they are. */
  function RowCells(w: seq<nat>, row: seq<string>): (cells: seq<string>)
    ensures |cells| == |row|
  {
    seq(|row|, i requires 0 <= i < |row| => if i < |w| then PadRight(row[i], w[i]) else row[i])
  }

  /** The lines of table mode: header, separator, then one line per row in input order. */
  function Render(headers: seq<string>, rows: seq<seq<string>>): (lines: seq<string>)
    ensures |lines| == 2 + |rows|
  {
    var w := Widths(headers, rows);
    [Join(HeaderCells(headers, w)), Join(SeparatorCells(w))] +
      seq(|rows|, k requires 0 <= k < |rows| => Join(RowCells(w, rows[k])))
  }

  // ---------------------------------------------------------------------
  // Alignment: every line has the same column boundaries
  // ---------------------------------------------------------------------

  function Sum(w: seq<nat>): nat {
    if w == [] then 0 else Sum(w[..|w| - 1]) + w[|w| - 1]
  }

  /** Where column i starts on every line: the widths before it plus one gutter per earlier column. */
  function ColumnStart(w: seq<nat>, i: nat): nat
    requires i <= |w|
  {
    Sum(w[..i]) + 2 * i
  }

  /** A shorter prefix of the cells gives a prefix of the line. */
  lemma {:induction false} JoinPrefix(cells: seq<string>, n: nat)
    requires 1 <= n <= |cells|
    ensures HasPrefix(Join(cells), Join(cells[..n]))
    decreases |cells| - n
  {
    if n < |cells| {
      JoinPrefix(cells, n + 1);
      JoinSnoc(cells, n);
      var a, b := Join(cells[..n]), Join(cells[..n + 1]);
      assert b[..|a|] == a;
      assert Join(cells)[..|a|] == b[..|a|];
    } else {
      assert cells[..n] == cells;
    }
  }

  /** When the first i cells have exactly the widths w[..i], the line up to cell i is as long as those columns and their gutters. */
  lemma {:induction false} JoinLength(cells: seq<string>, w: seq<nat>, i: nat)
    requires 1 <= i <= |cells| && i <= |w|
    requires forall k :: 0 <= k < i ==> |cells[k]| == w[k]
    ensures |Join(cells[..i])| == Sum(w[..i]) + 2 * (i - 1)
  {
    assert w[..i][..i - 1] == w[..i - 1];
    if i == 1 {
      assert w[..0] == [];
      assert Join(cells[..1]) == cells[0];
    } else {
      JoinLength(cells, w, i - 1);
      JoinSnoc(cells, i - 1);
    }
  }

  /** Cell i of a line sits at ColumnStart(w, i) when the cells before it are exactly as wide as their columns. */
  lemma CellAt(cells: seq<string>, w: seq<nat>, i: nat)
    requires i < |cells| && i < |w|
    requires forall k :: 0 <= k < i ==> |cells[k]| == w[k]
    ensures ColumnStart(w, i) + |cells[i]| <= |Join(cells)|
    ensures Join(cells)[ColumnStart(w, i)..ColumnStart(w, i) + |cells[i]|] == cells[i]
  {
    JoinPrefix(cells, i + 1);
    JoinSnoc(cells, i);
    var line, upto := Join(cells), Join(cells[..i + 1]);
    if i == 0 {
      assert w[..0] == [];
      assert upto == cells[0];
    } else {
      JoinLength(cells, w, i);
      assert upto == Join(cells[..i]) + "  " + cells[i];
    }
    assert line[..|upto|] == upto;
    assert line[ColumnStart(w, i)..ColumnStart(w, i) + |cells[i]|] == upto[ColumnStart(w, i)..];
  }

  /** The header line shows header i, padded to the column width, at ColumnStart. */
  lemma HeaderAligned(headers: seq<string>, rows: seq<seq<string>>, i: nat)
    requires i < |headers|
    ensures var w, line := Widths(headers, rows), Render(headers, rows)[0];
            ColumnStart(w, i) + w[i] <= |line| &&
            line[ColumnStart(w, i)..ColumnStart(w, i) + w[i]] == PadRight(headers[i], w[i])
  {
    var w := Widths(headers, rows);
    WidthsAreMaxima(headers, rows);
    var cells := HeaderCells(headers, w);
    assert forall k :: 0 <= k < i ==> |cells[k]| == w[k];
    CellAt(cells, w, i);
  }

  /** The separator line has w[i] dashes at ColumnStart. */
  lemma SeparatorAligned(headers: seq<string>, rows: seq<seq<string>>, i: nat)
    requires i < |headers|
    ensures var w, line := Widths(headers, rows), Render(headers, rows)[1];
            ColumnStart(w, i) + w[i] <= |line| &&
            line[ColumnStart(w, i)..ColumnStart(w, i) + w[i]] == Repeat('-', w[i])
  {
    var w := Widths(headers, rows);
    var cells := SeparatorCells(w);
    assert forall k :: 0 <= k < i ==> |cells[k]| == w[k];
    CellAt(cells, w, i);
  }

  /** Row k's line shows its cell i, padded to the column width, at ColumnStart. */
  lemma RowAligned(headers: seq<string>, rows: seq<seq<string>>, k: nat, i: nat)
    requires k < |rows| && i < |rows[k]| && i < |headers|
    ensures var w, line := Widths(headers, rows), Render(headers, rows)[2 + k];
            ColumnStart(w, i) + w[i] <= |line| &&
            line[ColumnStart(w, i)..ColumnStart(w, i) + w[i]] == PadRight(rows[k][i], w[i])
  {
    var w := Widths(headers, rows);
    WidthsAreMaxima(headers, rows);
    var cells := RowCells(w, rows[k]);
    assert Render(headers, rows)[2 + k] == Join(cells);
    forall j | 0 <= j < i
      ensures |cells[j]| == w[j]
    {
      assert w[j] >= |rows[k][j]|;
    }
    CellAt(cells, w, i);
  }

  /**
   * A cell past the last header is written as it is, without padding; the
   * last cell of such a row ends the line.
   */
  lemma PastHeaderCell(headers: seq<string>, rows: seq<seq<string>>, k: nat, i: nat)
    requires k < |rows| && |headers| <= i < |rows[k]|
    ensures RowCells(Widths(headers, rows), rows[k])[i] == rows[k][i]
    ensures i == |rows[k]| - 1 ==> HasSuffix(Render(headers, rows)[2 + k], rows[k][i])
  {
    var w := Widths(headers, rows);
    var cells := RowCells(w, rows[k]);
    var line := Render(headers, rows)[2 + k];
    assert line == Join(cells);
    if i == |rows[k]| - 1 {
      assert cells[..|cells|] == cells;
      JoinSnoc(cells, i);
      assert line[|line| - |rows[k][i]|..] == rows[k][i];
    }
  }

  /**
   * A row with fewer cells than headers stops after its last cell: the
   * missing columns add neither padding nor separators.
   */
  lemma ShortRowEnds(headers: seq<string>, rows: seq<seq<string>>, k: nat)
    requires k < |rows| && 0 < |rows[k]| <= |headers|
    ensures var w := Widths(headers, rows);
            |Render(headers, rows)[2 + k]| == Sum(w[..|rows[k]|]) + 2 * (|rows[k]| - 1)
  {
    var w := Widths(headers, rows);
    WidthsAreMaxima(headers, rows);
    var cells := RowCells(w, rows[k]);
    assert Render(headers, rows)[2 + k] == Join(cells);
    forall j | 0 <= j < |cells|
      ensures |cells[j]| == w[j]
    {
      assert w[j] >= |rows[k][j]|;
    }
    JoinLength(cells, w, |cells|);
    assert cells[..|cells|] == cells;
  }

  /** A padded cell is exactly as wide as its column and starts with the cell's text. */
  lemma PaddedToWidth(headers: seq<string>, rows: seq<seq<string>>, k: nat, i: nat)
    requires k < |rows| && i < |rows[k]| && i < |headers|
    ensures var w := Widths(headers, rows);
            |RowCells(w, rows[k])[i]| == w[i] && HasPrefix(RowCells(w, rows[k])[i], rows[k][i])
  {
    WidthsAreMaxima(headers, rows);
  }

  // ---------------------------------------------------------------------
  // Structured modes: one header-to-cell record per row
  // ---------------------------------------------------------------------

  /**
   * The record of one row: header j maps to cell j for every j below both
   * lengths; extra cells are dropped and a later duplicate header wins.
   */
  function RowRecord(headers: seq<string>, row: seq<string>): (m: map<string, string>)
    ensures |headers| <= |row| ==> m.Keys == set j | 0 <= j < |headers| :: headers[j]
  {
    if |headers| == 0 then map[]
    else
      var j := |headers| - 1;
      var m := RowRecord(headers[..j], row);
      if j < |row| then m[headers[j] := row[j]] else m
  }

  /** The record's keys are exactly the headers that have a cell. */
  lemma {:induction false} RowRecordKeys(headers: seq<string>, row: seq<string>, key: string)
    ensures key in RowRecord(headers, row) <==>
            exists j :: 0 <= j < |headers| && j < |row| && headers[j] == key
  {
    if |headers| > 0 {
      var n := |headers| - 1;
      RowRecordKeys(headers[..n], row, key);
      if key in RowRecord(headers[..n], row) {
        var j :| 0 <= j < n && j < |row| && headers[..n][j] == key;
        assert headers[j] == key;
      }
    }
  }

  /** Under each header the record holds the cell of the last column carrying that header. */
  lemma {:induction false} RowRecordValue(headers: seq<string>, row: seq<string>, j: nat)
    requires j < |headers| && j < |row|
    requires forall j' :: j < j' < |headers| && j' < |row| ==> headers[j'] != headers[j]
    ensures headers[j] in RowRecord(headers, row)
    ensures RowRecord(headers, row)[headers[j]] == row[j]
  {
    var n := |headers| - 1;
    if j < n {
      RowRecordValue(headers[..n], row, j);
    }
  }

  function Records(headers: seq<string>, rows: seq<seq<string>>): (data: seq<map<string, string>>)
    ensures |data| == |rows|
  {
    seq(|rows|, i requires 0 <= i < |rows| => RowRecord(headers, rows[i]))
  }

  /**
   * With distinct headers, the table and the records carry the same
   * information: each in-range cell is in the record under its header.
   */
  lemma RecordsMatchTable(headers: seq<string>, rows: seq<seq<string>>, k: nat, j: nat)
    requires forall a, b :: 0 <= a < b < |headers| ==> headers[a] != headers[b]
    requires k < |rows| && j < |headers| && j < |rows[k]|
    ensures headers[j] in Records(headers, rows)[k]
    ensures Records(headers, rows)[k][headers[j]] == rows[k][j]
  {
    RowRecordValue(headers, rows[k], j);
  }
}
