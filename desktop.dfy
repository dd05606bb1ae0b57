/**
 * The worksheet the first programs (rough.py, code.py, code_EN.py) fill
 * cell by cell: a title in B2, a metadata block in rows 4 to 8, the
 * schedule's header labels in row 12 (columns B to G) and one schedule row
 * per injection from row 13 on, columns A to G. The programs differ only in
 * their labels and in how they pick the next side, which a `Variant` holds.
 */
module Desktop {
  import opened Wrappers
  import opened Text
  import opened Volumes
  import opened Schedule
  import opened Sheet

  /** What distinguishes one program's worksheet from another's. */
  datatype Variant = Variant(
    todayLabel: string,         // A4
    intervalLabel: string,      // A6
    startLabel: string,         // A7
    lastsLabel: string,         // A8
    lastsUnit: Option<string>,  // C8, when written
    titleUnit: string,          // last word of the title in B2
    headers: seq<string>,       // B12..G12
    firstSide: string,
    flip: FlipRule)

  predicate ValidVariant(v: Variant)
  {
    |v.headers| == 6
  }

  /** The values the generating handler works from. */
  datatype Inputs = Inputs(
    name: string,
    ester: string,
    dose: real,           // mg
    total: real,          // mL in the vial
    concentration: real,  // mg/mL
    interval: int,        // days
    start: int)           // first injection date

  /** The handler divides by the concentration, and the loop needs a positive volume per dose. */
  predicate Usable(x: Inputs)
  {
    x.concentration != 0.0 && x.dose / x.concentration > 0.0
  }

  /** The schedule the loop walks through: dose / concentration mL per injection. */
  function PlanOf(v: Variant, x: Inputs): Plan
    requires x.concentration != 0.0
  {
    Plan(x.total, x.dose / x.concentration, x.interval, x.start, v.firstSide, v.flip)
  }

  /** The first row of the schedule block. */
  const FirstDataRow := 13

  /** The row holding the schedule's header labels. */
  const HeaderRow := 12

  /** The text of the merged title cell B2. */
  function Title(host: Host, v: Variant, x: Inputs): string
  {
    x.name + " - " + x.ester + " " + host.floatText(x.dose) + "mg / " + IntText(x.interval) + " " + v.titleUnit
  }

  /** The spreadsheet formula in B8: total volume / (dose / concentration). */
  const LastsFormula := "=$C$4/($B$5/$E$4)"

  /** Rows 2 to 8, in the order the handler writes them. */
  function HeadingCells(host: Host, v: Variant, x: Inputs): map<(int, int), Cell>
    requires x.concentration != 0.0
  {
    var cells := map[
      (2, 2) := Str(Title(host, v, x)),
      (4, 1) := Str(v.todayLabel), (4, 2) := Str("=TODAY()"), (4, 3) := Float(x.total),
      (4, 4) := Str("mL"), (4, 5) := Float(x.concentration), (4, 6) := Str("mg/mL"),
      (5, 1) := Str("Dose (mg)"), (5, 2) := Float(x.dose), (5, 3) := Float(x.dose / x.concentration),
      (5, 4) := Str("mL"),
      (6, 1) := Str(v.intervalLabel), (6, 2) := Int(x.interval),
      (7, 1) := Str(v.startLabel), (7, 2) := Str(host.strftime("%d/%m/%Y", x.start)),
      (8, 1) := Str(v.lastsLabel), (8, 2) := Str(LastsFormula)];
    if v.lastsUnit.Some? then cells[(8, 3) := Str(v.lastsUnit.value)] else cells
  }

  /** Columns A to G of one schedule row: weekday, date, mL left, days, months, side, count. */
  function DataCells(host: Host, row: Row): seq<Cell>
  {
    [Str(host.strftime("%A", row.date)), Str(host.strftime("%d/%m/%Y", row.date)), Float(row.remaining),
     Int(row.days), Float(row.months), Str(row.side), Int(row.count)]
  }

  /** The value at (r, c) once the heading, the header labels and `k` schedule rows are written. */
  function LayoutAt(host: Host, v: Variant, x: Inputs, k: nat, r: int, c: int): Option<Cell>
    requires ValidVariant(v) && x.concentration != 0.0
  {
    if FirstDataRow <= r < FirstDataRow + k && 1 <= c <= 7 then
      Some(DataCells(host, RowAt(PlanOf(v, x), r - FirstDataRow))[c - 1])
    else if r == HeaderRow && 2 <= c <= 7 then Some(Str(v.headers[c - 2]))
    else Lookup(HeadingCells(host, v, x), r, c)
  }

  /** Writes B2 and rows 4 to 8 into an empty worksheet. */
  method WriteHeading(ws: Worksheet, host: Host, v: Variant, x: Inputs)
    requires x.concentration != 0.0
    requires ws.cells == map[]
    modifies ws
    ensures ws.cells == HeadingCells(host, v, x)
    ensures ws.widths == old(ws.widths)
  {
    ws.Put(2, 2, Str(Title(host, v, x)));
    ws.Put(4, 1, Str(v.todayLabel));
    ws.Put(4, 2, Str("=TODAY()"));
    ws.Put(4, 3, Float(x.total));
    ws.Put(4, 4, Str("mL"));
    ws.Put(4, 5, Float(x.concentration));
    ws.Put(4, 6, Str("mg/mL"));
    ws.Put(5, 1, Str("Dose (mg)"));
    ws.Put(5, 2, Float(x.dose));
    ws.Put(5, 3, Float(x.dose / x.concentration));
    ws.Put(5, 4, Str("mL"));
    ws.Put(6, 1, Str(v.intervalLabel));
    ws.Put(6, 2, Int(x.interval));
    ws.Put(7, 1, Str(v.startLabel));
    ws.Put(7, 2, Str(host.strftime("%d/%m/%Y", x.start)));
    ws.Put(8, 1, Str(v.lastsLabel));
    ws.Put(8, 2, Str(LastsFormula));
    if v.lastsUnit.Some? {
      ws.Put(8, 3, Str(v.lastsUnit.value));
    }
  }

  /**
   * The body of the generating handler, from the heading to the column
   * widths: the header labels go to row 12, the schedule rows follow from
   * row 13, and every column's width is its longest `str(value or "")`
   * plus 2.
   */
  method Build(ws: Worksheet, host: Host, v: Variant, x: Inputs)
    requires ValidVariant(v) && Usable(x)
    requires ws.cells == map[]
    modifies ws
    ensures forall r, c {:trigger Lookup(ws.cells, r, c)} ::
      Lookup(ws.cells, r, c) == LayoutAt(host, v, x, RowCount(PlanOf(v, x)), r, c)
    ensures forall c :: c in ws.widths <==> c in old(ws.widths) || 1 <= c <= 7
    ensures forall c :: c in old(ws.widths) && !(1 <= c <= 7) ==> ws.widths[c] == old(ws.widths)[c]
    ensures forall c :: 1 <= c <= 7 ==>
      ws.widths[c] == ColumnMax(host, StrOfValueOrEmpty, ws.cells, c, HeaderRow + RowCount(PlanOf(v, x))) + 2
  {
    WriteHeading(ws, host, v, x);
    ws.PutRow(HeaderRow, 2, Present(Labels(v.headers)));
    var lastRow := FillSchedule(ws, host, v, x);
    ws.SetColumnWidths(host, StrOfValueOrEmpty, lastRow, 7);
  }

  /**
   * What a generating handler leaves behind: every cell as `LayoutAt`
   * describes it with all the schedule's rows, widths for columns A to G
   * only, each the column's longest `str(value or "")` + 2 over rows 1 to
   * 12 + rows.
   */
  ghost predicate Generated(ws: Worksheet, host: Host, v: Variant, x: Inputs)
    requires ValidVariant(v) && Usable(x)
    reads ws
  {
    && (forall r, c {:trigger Lookup(ws.cells, r, c)} ::
          Lookup(ws.cells, r, c) == LayoutAt(host, v, x, RowCount(PlanOf(v, x)), r, c))
    && (forall c :: c in ws.widths <==> 1 <= c <= 7)
    && (forall c :: 1 <= c <= 7 ==>
          ws.widths[c] == ColumnMax(host, StrOfValueOrEmpty, ws.cells, c, HeaderRow + RowCount(PlanOf(v, x))) + 2)
  }

  /** A new workbook's active sheet, filled by the generating handler's body. */
  method NewSheet(host: Host, v: Variant, x: Inputs) returns (ws: Worksheet)
    requires ValidVariant(v) && Usable(x)
    ensures fresh(ws)
    ensures Generated(ws, host, v, x)
  {
    ws := new Worksheet();
    Build(ws, host, v, x);
  }

  /**
   * The schedule loop: while the volume left is at least one dose, write
   * the row for the current injection at the current row, then take the
   * dose, advance the days, flip the side and move one row down. Returns
   * the last row written (12 when there is none).
   */
  method FillSchedule(ws: Worksheet, host: Host, v: Variant, x: Inputs) returns (lastRow: int)
    requires ValidVariant(v) && Usable(x)
    requires forall r, c {:trigger Lookup(ws.cells, r, c)} :: Lookup(ws.cells, r, c) == LayoutAt(host, v, x, 0, r, c)
    modifies ws
    ensures forall r, c {:trigger Lookup(ws.cells, r, c)} ::
      Lookup(ws.cells, r, c) == LayoutAt(host, v, x, RowCount(PlanOf(v, x)), r, c)
    ensures ws.widths == old(ws.widths)
    ensures lastRow == HeaderRow + RowCount(PlanOf(v, x))
  {
    var p := PlanOf(v, x);
    var doseMl := x.dose / x.concentration;
    var currentRow := FirstDataRow;
    var injectionCount := 1;
    var currentSide := v.firstSide;
    var daysElapsed := 0;
    var mlRemaining := x.total;
    ghost var k: nat := 0;
    while mlRemaining >= doseMl
      invariant k <= RowCount(p)
      invariant currentRow == FirstDataRow + k && injectionCount == k + 1
      invariant mlRemaining == Remaining(p, k)
      invariant daysElapsed == k * x.interval
      invariant currentSide == SideAt(v.flip, v.firstSide, k)
      invariant forall r, c {:trigger Lookup(ws.cells, r, c)} ::
        Lookup(ws.cells, r, c) == LayoutAt(host, v, x, k, r, c)
      invariant ws.widths == old(ws.widths)
      decreases RowCount(p) - k
    {
      EmittedIff(p, k);
      Step(p, k);
      var row := Row(injectionCount, x.start + daysElapsed, Round2(mlRemaining), daysElapsed,
                     Round2(daysElapsed as real / 30.0), currentSide);
      assert row == RowAt(p, k);
      ghost var before := ws.cells;
      ws.PutRow(currentRow, 1, Present(DataCells(host, row)));
      LayoutGrows(host, v, x, k, before, ws.cells);

      mlRemaining := mlRemaining - doseMl;
      daysElapsed := daysElapsed + x.interval;
      currentSide := Flip(v.flip, currentSide);
      injectionCount := injectionCount + 1;
      currentRow := currentRow + 1;
      k := k + 1;
    }
    EmittedIff(p, k);
    lastRow := currentRow - 1;
  }

  /** Writing schedule row `k` over the layout with `k` rows gives the layout with `k + 1` rows. */
  lemma LayoutGrows(host: Host, v: Variant, x: Inputs, k: nat,
                    before: map<(int, int), Cell>, after: map<(int, int), Cell>)
    requires ValidVariant(v) && x.concentration != 0.0
    requires forall r, c {:trigger Lookup(before, r, c)} :: Lookup(before, r, c) == LayoutAt(host, v, x, k, r, c)
    requires forall r, c {:trigger Lookup(after, r, c)} :: (Lookup(after, r, c) ==
      if r == FirstDataRow + k && 1 <= c < 1 + |Present(DataCells(host, RowAt(PlanOf(v, x), k)))|
      then Present(DataCells(host, RowAt(PlanOf(v, x), k)))[c - 1]
      else Lookup(before, r, c))
    ensures forall r, c {:trigger Lookup(after, r, c)} :: Lookup(after, r, c) == LayoutAt(host, v, x, k + 1, r, c)
  {
    forall r, c
      ensures Lookup(after, r, c) == LayoutAt(host, v, x, k + 1, r, c)
    {
      assert Lookup(before, r, c) == LayoutAt(host, v, x, k, r, c);
    }
  }

  /** Row 12 holds the six header labels in columns B to G and nothing in column A. */
  lemma HeaderLabels(host: Host, v: Variant, x: Inputs, n: nat, c: int)
    requires ValidVariant(v) && x.concentration != 0.0
    requires 1 <= c <= 7
    ensures LayoutAt(host, v, x, n, HeaderRow, c) == if c == 1 then None else Some(Str(v.headers[c - 2]))
  {
  }

  /**
   * Schedule row `i` sits in worksheet row 13 + i, with the count in
   * column G, the side in column F and the volume left in column C; no
   * row below the last one holds anything.
   */
  lemma DataRowPlacement(host: Host, v: Variant, x: Inputs, i: nat, r: int, c: int)
    requires ValidVariant(v) && Usable(x)
    ensures var n := RowCount(PlanOf(v, x));
      && (i < n ==> LayoutAt(host, v, x, n, FirstDataRow + i, 7) == Some(Int(i + 1)))
      && (i < n ==> LayoutAt(host, v, x, n, FirstDataRow + i, 6) == Some(Str(SideAt(v.flip, v.firstSide, i))))
      && (i < n ==> LayoutAt(host, v, x, n, FirstDataRow + i, 3) == Some(Float(Round2(Remaining(PlanOf(v, x), i)))))
      && (r >= FirstDataRow + n ==> LayoutAt(host, v, x, n, r, c) == None)
  {
  }

  /**
   * The first schedule row's "days" value is 0, which `str(value or "")`
   * turns into the empty string: it adds nothing to column D's width.
   */
  lemma FirstDaysCellMeasuresEmpty(host: Host, v: Variant, x: Inputs)
    requires ValidVariant(v) && Usable(x)
    requires RowCount(PlanOf(v, x)) >= 1
    ensures TextLength(host, StrOfValueOrEmpty, LayoutAt(host, v, x, RowCount(PlanOf(v, x)), FirstDataRow, 4)) == 0
  {
  }

  /**
   * What the B8 formula computes, total / (dose / concentration), is a
   * fraction whose whole part is the number of schedule rows.
   */
  lemma LastsFormulaWholePart(x: Inputs, v: Variant)
    requires Usable(x) && x.total >= 0.0
    ensures (x.total / (x.dose / x.concentration)).Floor == RowCount(PlanOf(v, x))
  {
    var d := x.dose / x.concentration;
    FitsIffBelowQuotient(x.total, d, 0);
    FitsIffBelowQuotient(x.total, d, 1);
  }
}
