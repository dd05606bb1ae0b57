/**
 * An openpyxl worksheet as the program uses it: cells addressed by
 * (row, column), both 1-based, holding text, integers or floats, and a
 * width per column derived from the text of the column's cells.
 */
module Sheet {
  import opened Wrappers
  import opened Text

  /** A value stored in a cell. */
  datatype Cell = Str(s: string) | Int(i: int) | Float(r: real)

  /** A row of text labels, one per cell. */
  function Labels(names: seq<string>): (cells: seq<Cell>)
    ensures |cells| == |names|
    ensures forall i :: 0 <= i < |names| ==> cells[i] == Str(names[i])
  {
    seq(|names|, i requires 0 <= i < |names| => Str(names[i]))
  }

  /** The values of a row in which every cell is written. */
  function Present(cells: seq<Cell>): (values: seq<Option<Cell>>)
    ensures |values| == |cells|
    ensures forall i :: 0 <= i < |cells| ==> values[i] == Some(cells[i])
  {
    seq(|cells|, i requires 0 <= i < |cells| => Some(cells[i]))
  }

  /** `str(value)` of a stored value. */
  function CellText(host: Host, c: Cell): string
  {
    match c
    case Str(s) => s
    case Int(i) => IntText(i)
    case Float(r) => host.floatText(r)
  }

  /** Python truthiness: "", 0 and 0.0 are false. */
  predicate Falsy(c: Cell)
  {
    c == Str("") || c == Int(0) || c == Float(0.0)
  }

  /** How a width loop measures a cell. */
  datatype Measure =
    | StrOfValue        // len(str(cell.value)): an empty cell reads "None"
    | StrOfValueOrEmpty // len(str(cell.value or "")): empty and falsy cells read ""

  /** The length a width loop measures for a cell that may be empty. */
  function TextLength(host: Host, m: Measure, v: Option<Cell>): nat
  {
    match v
    case None => if m == StrOfValue then |"None"| else 0
    case Some(c) => if m == StrOfValueOrEmpty && Falsy(c) then 0 else |CellText(host, c)|
  }

  /** The cell at (row, col), if a value was ever written there. */
  function Lookup(cells: map<(int, int), Cell>, row: int, col: int): Option<Cell>
  {
    if (row, col) in cells then Some(cells[(row, col)]) else None
  }

  /** The longest measured text in rows 1..rows of column `col` (0 for no rows). */
  function ColumnMax(host: Host, m: Measure, cells: map<(int, int), Cell>, col: int, rows: nat): nat
    decreases rows
  {
    if rows == 0 then 0
    else
      var here := TextLength(host, m, Lookup(cells, rows, col));
      var above := ColumnMax(host, m, cells, col, rows - 1);
      if here > above then here else above
  }

  /**
   * `ColumnMax` is the maximum: no cell of the column is longer, and when
   * there is at least one row some cell is exactly that long.
   */
  lemma {:induction false} ColumnMaxIsMaximum(host: Host, m: Measure, cells: map<(int, int), Cell>, col: int, rows: nat)
    ensures forall r :: 1 <= r <= rows ==>
      TextLength(host, m, Lookup(cells, r, col)) <= ColumnMax(host, m, cells, col, rows)
    ensures rows >= 1 ==>
      exists r :: 1 <= r <= rows && TextLength(host, m, Lookup(cells, r, col)) == ColumnMax(host, m, cells, col, rows)
    decreases rows
  {
    if rows > 0 {
      ColumnMaxIsMaximum(host, m, cells, col, rows - 1);
      var here := TextLength(host, m, Lookup(cells, rows, col));
      if rows == 1 || here >= ColumnMax(host, m, cells, col, rows - 1) {
        assert here == ColumnMax(host, m, cells, col, rows);
      }
    }
  }

  /** The worksheet of a fresh workbook, filled in place. */
  class Worksheet {
    var cells: map<(int, int), Cell>
    var widths: map<int, int>  // column_dimensions[letter].width, by column number

    constructor ()
      ensures cells == map[] && widths == map[]
    {
      cells := map[];
      widths := map[];
    }

    /** `ws.cell(row=row, column=col, value=v)`. */
    method Put(row: int, col: int, v: Cell)
      modifies this
      ensures cells == old(cells)[(row, col) := v]
      ensures widths == old(widths)
    {
      cells := cells[(row, col) := v];
    }

    /**
     * `ws.cell(row=row, column=col, value=v)` for a value that may be
     * `None`: openpyxl assigns only a value that is not `None`, so a `None`
     * write leaves the cell as it was (empty on a fresh sheet).
     */
    method Set(row: int, col: int, v: Option<Cell>)
      modifies this
      ensures forall r, c {:trigger Lookup(cells, r, c)} :: (Lookup(cells, r, c) ==
        if r == row && c == col && v.Some? then v else Lookup(old(cells), r, c))
      ensures widths == old(widths)
    {
      if v.Some? {
        Put(row, col, v.value);
      }
    }

    /**
     * `for c, v in enumerate(values, start=firstCol): ws.cell(row=row, column=c, value=v)`;
     * a `None` value leaves its cell as it was.
     */
    method PutRow(row: int, firstCol: int, values: seq<Option<Cell>>)
      modifies this
      ensures forall r, c {:trigger Lookup(cells, r, c)} :: (Lookup(cells, r, c) ==
        if r == row && firstCol <= c < firstCol + |values| && values[c - firstCol].Some? then values[c - firstCol]
        else Lookup(old(cells), r, c))
      ensures widths == old(widths)
    {
      var k := 0;
      while k < |values|
        invariant 0 <= k <= |values|
        invariant forall r, c {:trigger Lookup(cells, r, c)} :: (Lookup(cells, r, c) ==
          if r == row && firstCol <= c < firstCol + k && values[c - firstCol].Some? then values[c - firstCol]
          else Lookup(old(cells), r, c))
        invariant widths == old(widths)
      {
        Set(row, firstCol + k, values[k]);
        k := k + 1;
      }
    }

    /** Writes `lines[k]` into row `top + k` from column 1 on. */
    method PutRows(top: int, lines: seq<seq<Option<Cell>>>)
      modifies this
      ensures forall r, c {:trigger Lookup(cells, r, c)} :: (Lookup(cells, r, c) ==
        if top <= r < top + |lines| && 1 <= c <= |lines[r - top]| && lines[r - top][c - 1].Some? then lines[r - top][c - 1]
        else Lookup(old(cells), r, c))
      ensures widths == old(widths)
    {
      var k := 0;
      while k < |lines|
        invariant 0 <= k <= |lines|
        invariant forall r, c {:trigger Lookup(cells, r, c)} :: (Lookup(cells, r, c) ==
          if top <= r < top + k && 1 <= c <= |lines[r - top]| && lines[r - top][c - 1].Some? then lines[r - top][c - 1]
          else Lookup(old(cells), r, c))
        invariant widths == old(widths)
      {
        PutRow(top + k, 1, lines[k]);
        k := k + 1;
      }
    }

    /**
     * The width loop: for each column 1..maxCol, the longest measured text
     * over rows 1..maxRow, plus 2 characters of padding.
     */
    method SetColumnWidths(host: Host, m: Measure, maxRow: nat, maxCol: nat)
      modifies this
      ensures cells == old(cells)
      ensures forall c :: c in widths <==> c in old(widths) || 1 <= c <= maxCol
      ensures forall c :: 1 <= c <= maxCol ==> widths[c] == ColumnMax(host, m, cells, c, maxRow) + 2
      ensures forall c :: c in old(widths) && !(1 <= c <= maxCol) ==> widths[c] == old(widths)[c]
    {
      var col := 1;
      while col <= maxCol
        invariant 1 <= col <= maxCol + 1
        invariant cells == old(cells)
        invariant forall c :: c in widths <==> c in old(widths) || 1 <= c < col
        invariant forall c :: 1 <= c < col ==> widths[c] == ColumnMax(host, m, cells, c, maxRow) + 2
        invariant forall c :: c in old(widths) && !(1 <= c < col) ==> widths[c] == old(widths)[c]
      {
        var maxLength := 0;
        var row := 1;
        while row <= maxRow
          invariant 1 <= row <= maxRow + 1
          invariant maxLength == ColumnMax(host, m, cells, col, row - 1)
        {
          var length := TextLength(host, m, Lookup(cells, row, col));
          if length > maxLength {
            maxLength := length;
          }
          row := row + 1;
        }
        widths := widths[col := maxLength + 2];
        col := col + 1;
      }
    }
  }
}
