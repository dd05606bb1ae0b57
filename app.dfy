/**
 * The current program (app.py): a form whose dose is given in mg or mL, the
 * schedule and metadata it generates, and the two exports of a schedule — a
 * worksheet and a list of iCalendar events.
 */
module App {
  import opened Wrappers
  import opened Text
  import opened Volumes
  import opened Schedule
  import opened Sheet

  /**
   * The form's fields. Every widget starts from `None` and gives `None`
   * until it is filled in; only the five fields `validate_fields` checks are
   * required, so the name and the ester may stay `None`.
   */
  datatype Form = Form(
    name: Option<string>,
    ester: Option<string>,
    interval: Option<int>,
    startDate: Option<int>,
    dose: Option<real>,
    doseType: string,           // "mg" or "mL", from the sidebar
    totalVolume: Option<real>,
    concentration: Option<real>)

  /** `validate_fields`: every required field (all but name and ester) is filled in. */
  function ValidateFields(f: Form): (ok: bool)
    ensures ok <==> f.interval.Some? && f.startDate.Some? && f.dose.Some?
                    && f.totalVolume.Some? && f.concentration.Some?
  {
    f.interval != None && f.startDate != None && f.dose != None
    && f.totalVolume != None && f.concentration != None
  }

  /** The mg-mode division by the concentration does not divide by zero. */
  predicate CanDivide(f: Form)
    requires ValidateFields(f)
  {
    f.doseType == "mg" ==> f.concentration.value != 0.0
  }

  /**
   * The volume of one injection: the dose divided by the concentration when
   * the dose is in mg, the dose itself otherwise.
   */
  function DoseMl(f: Form): (ml: real)
    requires ValidateFields(f) && CanDivide(f)
    ensures f.doseType == "mg" ==> ml * f.concentration.value == f.dose.value
    ensures f.doseType != "mg" ==> ml == f.dose.value
  {
    if f.doseType == "mg" then f.dose.value / f.concentration.value else f.dose.value
  }

  /** The schedule parameters a form gives. */
  function PlanOf(f: Form, startingSide: string): Plan
    requires ValidateFields(f) && CanDivide(f)
  {
    Plan(f.totalVolume.value, DoseMl(f), f.interval.value, f.startDate.value, startingSide, LeftRight)
  }

  /** The metadata record, with the dose given both in mg and in mL. */
  datatype Metadata = Metadata(
    name: Option<string>,     // None when left blank
    ester: Option<string>,
    generated: string,      // today's date, formatted
    doseMg: real,
    doseMl: real,
    interval: int,
    startDate: string,      // formatted
    lasts: int,             // shown as "{lasts} doses"
    totalMl: real,
    concentration: real)

  /**
   * `generate_metadata`: the two dose figures are consistent with each other
   * and with the volume the schedule loop injects each time.
   */
  function GenerateMetadata(host: Host, f: Form, dateFormat: string, today: int, injectionsSum: int): (md: Metadata)
    requires ValidateFields(f) && CanDivide(f)
    ensures md.doseMl * f.concentration.value == md.doseMg
    ensures md.doseMl == DoseMl(f)
    ensures f.doseType == "mg" ==> md.doseMg == f.dose.value
    ensures md.lasts == injectionsSum
  {
    var doseMg := if f.doseType == "mg" then f.dose.value else f.dose.value * f.concentration.value;
    Metadata(f.name, f.ester, host.strftime(dateFormat, today), doseMg, DoseMl(f), f.interval.value,
             host.strftime(dateFormat, f.startDate.value), injectionsSum, f.totalVolume.value,
             f.concentration.value)
  }

  /**
   * `Form.generate_calendar`: the rows of the shared schedule loop, and the
   * metadata, whose "Lasts" is the final injection counter, one more than
   * the number of rows.
   */
  method GenerateCalendar(host: Host, f: Form, dateFormat: string, startingSide: string, today: int)
    returns (md: Metadata, rows: seq<Row>)
    requires ValidateFields(f) && CanDivide(f)
    requires DoseMl(f) > 0.0
    ensures |rows| == DoseCount(f.totalVolume.value, DoseMl(f))
    ensures forall i :: 0 <= i < |rows| ==> rows[i] == RowAt(PlanOf(f, startingSide), i)
    ensures md == GenerateMetadata(host, f, dateFormat, today, |rows| + 1)
    ensures md.lasts == |rows| + 1
  {
    var injectionCount;
    rows, injectionCount := Generate(PlanOf(f, startingSide));
    md := GenerateMetadata(host, f, dateFormat, today, injectionCount);
  }

  /**
   * From either starting side the sides take turns: row `i` is on the
   * starting side when `i` is even and on the other one when it is odd.
   */
  lemma SidesAlternate(f: Form, startingSide: string, i: nat)
    requires ValidateFields(f) && CanDivide(f)
    requires startingSide == "Left" || startingSide == "Right"
    ensures var other := if startingSide == "Left" then "Right" else "Left";
      RowAt(PlanOf(f, startingSide), i).side == if i % 2 == 0 then startingSide else other
    ensures RowAt(PlanOf(f, startingSide), i + 1).side != RowAt(PlanOf(f, startingSide), i).side
  {
    AlternationParity("Left", "Right", startingSide, i);
    AlternationAlternates("Left", "Right", startingSide, i);
  }

  /** A pandas DataFrame: column names and rows of values, `None` for a missing one. */
  datatype Frame = Frame(columns: seq<string>, rows: seq<seq<Option<Cell>>>)

  /** Every row has one value per column. */
  predicate Rectangular(f: Frame)
  {
    forall i :: 0 <= i < |f.rows| ==> |f.rows[i]| == |f.columns|
  }

  /** `dataframe_to_rows(f, index=False, header=True)`: the header, then the rows. */
  function Lines(f: Frame): (lines: seq<seq<Option<Cell>>>)
    ensures |lines| == |f.rows| + 1
    ensures |lines[0]| == |f.columns|
    ensures forall c :: 0 <= c < |f.columns| ==> lines[0][c] == Some(Str(f.columns[c]))
    ensures forall k :: 1 <= k < |lines| ==> lines[k] == f.rows[k - 1]
  {
    [Present(Labels(f.columns))] + f.rows
  }

  const MetadataColumns := ["Name", "Ester", "Generation Date", "Dose (mg)", "Dose (mL)", "Interval",
                            "Start Date", "Lasts", "Total mL", "Concentration (mg/mL)"]

  const CalendarColumns := ["Injection Count", "Day", "Date", "Remaining mL", "Days", "Months", "Side"]

  /** A text field's value in a DataFrame: `None` stays missing. */
  function TextValue(s: Option<string>): (v: Option<Cell>)
    ensures v.None? <==> s.None?
    ensures s.Some? ==> v == Some(Str(s.value))
  {
    match s
    case None => None
    case Some(t) => Some(Str(t))
  }

  /**
   * `pd.DataFrame([metadata])`: one row, its values rendered as the f-strings
   * do; a blank name or ester stays a missing value.
   */
  function MetadataFrame(host: Host, md: Metadata): (fr: Frame)
    ensures Rectangular(fr) && |fr.rows| == 1
  {
    Frame(MetadataColumns, [[
      TextValue(md.name), TextValue(md.ester), Some(Str(md.generated)),
      Some(Str(host.floatText(md.doseMg) + " mg")), Some(Str(host.floatText(md.doseMl) + " mL")),
      Some(Int(md.interval)), Some(Str(md.startDate)), Some(Str(IntText(md.lasts) + " doses")),
      Some(Str(host.floatText(md.totalMl) + " mL")), Some(Str(host.floatText(md.concentration) + " mg/mL"))]])
  }

  /** The values one schedule row contributes to the calendar DataFrame. */
  function RowCells(host: Host, dateFormat: string, row: Row): seq<Cell>
  {
    [Int(row.count), Str(host.strftime("%A", row.date)), Str(host.strftime(dateFormat, row.date)),
     Float(row.remaining), Int(row.days), Float(row.months), Str(row.side)]
  }

  /** `pd.DataFrame(data_dict)`: one DataFrame row per schedule row. */
  function CalendarFrame(host: Host, dateFormat: string, rows: seq<Row>): (fr: Frame)
    ensures Rectangular(fr) && |fr.rows| == |rows|
  {
    Frame(CalendarColumns, seq(|rows|, i requires 0 <= i < |rows| => Present(RowCells(host, dateFormat, rows[i]))))
  }

  /** The row of the schedule block's header: two rows below the metadata block. */
  function CalendarStartRow(md: Frame): int
  {
    |md.rows| + 3
  }

  /** The value `export_to_excel` leaves at (r, c), or `None` for an empty cell. */
  function ExcelAt(md: Frame, cal: Frame, r: int, c: int): Option<Cell>
  {
    var top := CalendarStartRow(md);
    var lines := if 1 <= r <= |md.rows| + 1 then Lines(md)
                 else if top <= r < top + |cal.rows| + 1 then Lines(cal)
                 else [];
    var k := if 1 <= r <= |md.rows| + 1 then r - 1 else r - top;
    if 0 <= k < |lines| && 1 <= c <= |lines[k]| then lines[k][c - 1] else None
  }

  /**
   * The last row and column the width loop visits (openpyxl's `max_row` and
   * `max_column`): colouring a header row touches every column of it, so the
   * schedule header row and column 1 are always there.
   */
  function ExcelMaxRow(md: Frame, cal: Frame): nat
  {
    CalendarStartRow(md) + (if |cal.columns| == 0 then 0 else |cal.rows|)
  }

  function ExcelMaxCol(md: Frame, cal: Frame): nat
  {
    var widest := if |md.columns| > |cal.columns| then |md.columns| else |cal.columns|;
    if widest == 0 then 1 else widest
  }

  /**
   * `export_to_excel`: nothing when either frame is missing; otherwise a
   * fresh worksheet holding the metadata block from row 1 and the schedule
   * block from `CalendarStartRow`, each column `len(str(value)) + 2` wide
   * at its longest, an empty cell counting as the text "None".
   */
  method ExportToExcel(host: Host, md: Option<Frame>, cal: Option<Frame>) returns (out: Option<Worksheet>)
    requires md.Some? ==> Rectangular(md.value)
    requires cal.Some? ==> Rectangular(cal.value)
    ensures out.None? <==> md.None? || cal.None?
    ensures out.Some? ==> fresh(out.value)
    ensures out.Some? ==> forall r, c {:trigger Lookup(out.value.cells, r, c)} ::
      Lookup(out.value.cells, r, c) == ExcelAt(md.value, cal.value, r, c)
    ensures out.Some? ==> forall c :: c in out.value.widths <==> 1 <= c <= ExcelMaxCol(md.value, cal.value)
    ensures out.Some? ==> forall c :: 1 <= c <= ExcelMaxCol(md.value, cal.value) ==>
      out.value.widths[c] == ColumnMax(host, StrOfValue, out.value.cells, c, ExcelMaxRow(md.value, cal.value)) + 2
  {
    if md.None? || cal.None? {
      return None;
    }
    var ws := new Worksheet();
    ws.PutRows(1, Lines(md.value));
    ws.PutRows(CalendarStartRow(md.value), Lines(cal.value));
    ws.SetColumnWidths(host, StrOfValue, ExcelMaxRow(md.value, cal.value), ExcelMaxCol(md.value, cal.value));
    out := Some(ws);
  }

  /**
   * The layout of a one-row metadata frame and a schedule: metadata header in
   * row 1, its values in row 2, row 3 empty, the schedule header in row 4 and
   * schedule row `i` in row `5 + i`.
   */
  lemma OneRowMetadataLayout(host: Host, md: Metadata, dateFormat: string, rows: seq<Row>, i: nat, c: int)
    requires i < |rows| && 1 <= c <= 7
    ensures var mf, cf := MetadataFrame(host, md), CalendarFrame(host, dateFormat, rows);
      && CalendarStartRow(mf) == 4
      && ExcelAt(mf, cf, 1, c) == Some(Str(MetadataColumns[c - 1]))
      && ExcelAt(mf, cf, 3, c) == None
      && ExcelAt(mf, cf, 4, c) == Some(Str(CalendarColumns[c - 1]))
      && ExcelAt(mf, cf, 5 + i, c) == Some(RowCells(host, dateFormat, rows[i])[c - 1])
  {
  }

  /**
   * A blank name or ester leaves its metadata cell (A2, B2) empty; a filled
   * one puts its text there.
   */
  lemma BlankNameAndEster(host: Host, md: Metadata, cal: Frame)
    ensures ExcelAt(MetadataFrame(host, md), cal, 2, 1) == TextValue(md.name)
    ensures ExcelAt(MetadataFrame(host, md), cal, 2, 2) == TextValue(md.ester)
    ensures ExcelAt(MetadataFrame(host, md), cal, 2, 1).None? <==> md.name.None?
    ensures ExcelAt(MetadataFrame(host, md), cal, 2, 2).None? <==> md.ester.None?
  {
  }

  /**
   * Because the row between the two blocks is empty and reads "None", every
   * column the width loop sets is at least 4 + 2 characters wide.
   */
  lemma ExcelWidthsAtLeastSix(host: Host, md: Frame, cal: Frame, cells: map<(int, int), Cell>, c: int)
    requires forall r, c' :: Lookup(cells, r, c') == ExcelAt(md, cal, r, c')
    ensures ColumnMax(host, StrOfValue, cells, c, ExcelMaxRow(md, cal)) + 2 >= 6
  {
    var gap := |md.rows| + 2;
    assert Lookup(cells, gap, c) == None;
    ColumnMaxIsMaximum(host, StrOfValue, cells, c, ExcelMaxRow(md, cal));
  }

  /** An all-day calendar event. */
  datatype Event = Event(summary: string, description: string, dtstart: int, dtend: int)

  datatype Calendar = Calendar(prodid: string, version: string, events: seq<Event>)

  const SecondToLastMark := " (SECOND TO LAST DOSE)"
  const RefillLine := "Please order a refill " + "if you haven't already!\n"

  predicate EndsWith(s: string, suffix: string)
  {
    |suffix| <= |s| && s[|s| - |suffix|..] == suffix
  }

  predicate StartsWith(s: string, prefix: string)
  {
    |prefix| <= |s| && s[..|prefix|] == prefix
  }

  function Summary(side: string): string
  {
    "Take dose: " + side + " side"
  }

  /** The four lines every event's description ends with. */
  function Details(host: Host, row: Row): string
  {
    "Injection Count: " + IntText(row.count) + "\n"
    + "Remaining mL: " + host.floatText(row.remaining) + "\n"
    + "Days: " + IntText(row.days) + "\n"
    + "Months: " + host.floatText(row.months) + "\n"
  }

  /** The second-to-last index, when the warning is wanted and there are two rows or more. */
  function SecondToLastIndex(n: nat, warn: bool): Option<nat>
  {
    if warn && n > 1 then Some(n - 2) else None
  }

  /** The event `export_to_ical` builds for row `i`. */
  function EventAt(host: Host, rows: seq<Row>, warn: bool, i: nat): Event
    requires i < |rows|
  {
    var row := rows[i];
    var marked := warn && SecondToLastIndex(|rows|, warn) == Some(i);
    Event(Summary(row.side) + (if marked then SecondToLastMark else ""),
          (if marked then RefillLine else "") + Details(host, row),
          row.date, row.date)
  }

  /**
   * `export_to_ical`: nothing when the schedule is missing; otherwise a
   * calendar with one event per row, in order.
   */
  method ExportToIcal(host: Host, cal: Option<seq<Row>>, warn: bool) returns (out: Option<Calendar>)
    ensures out.None? <==> cal.None?
    ensures out.Some? ==> out.value.prodid == "-//HRT Calendar//mxm.dk//" && out.value.version == "2.0"
    ensures out.Some? ==> |out.value.events| == |cal.value|
    ensures out.Some? ==> forall i :: 0 <= i < |cal.value| ==> out.value.events[i] == EventAt(host, cal.value, warn, i)
  {
    if cal.None? {
      return None;
    }
    var rows := cal.value;
    var marked := SecondToLastIndex(|rows|, warn);
    var events := [];
    for index := 0 to |rows|
      invariant |events| == index
      invariant forall i :: 0 <= i < index ==> events[i] == EventAt(host, rows, warn, i)
    {
      var row := rows[index];
      var mark := warn && marked == Some(index);
      var summary := Summary(row.side) + (if mark then SecondToLastMark else "");
      var description := (if mark then RefillLine else "") + Details(host, row);
      var event := Event(summary, description, row.date, row.date);
      events := events + [event];
    }
    out := Some(Calendar("-//HRT Calendar//mxm.dk//", "2.0", events));
  }

  /**
   * The warning goes on exactly one event: the summary carries the
   * second-to-last mark, and the description opens with the refill line,
   * exactly when the warning is on, there are at least two rows and this is
   * the second-to-last one.
   */
  lemma WarningPlacement(host: Host, rows: seq<Row>, warn: bool, i: nat)
    requires i < |rows|
    ensures var e := EventAt(host, rows, warn, i);
      var marked := warn && |rows| > 1 && i == |rows| - 2;
      && (EndsWith(e.summary, SecondToLastMark) <==> marked)
      && (StartsWith(e.description, RefillLine) <==> marked)
  {
    var e := EventAt(host, rows, warn, i);
    var marked := warn && |rows| > 1 && i == |rows| - 2;
    if !marked {
      var s := Summary(rows[i].side);
      assert e.summary == s && s[|s| - 1] == 'e';
      assert SecondToLastMark[|SecondToLastMark| - 1] == ')';
      var d := Details(host, rows[i]);
      assert e.description == d && d[0] == 'I';
      assert RefillLine[0] == 'P';
    }
  }

  /** Every event is all-day on its row's date and its description ends with the row's details. */
  lemma EventCarriesRow(host: Host, rows: seq<Row>, warn: bool, i: nat)
    requires i < |rows|
    ensures var e := EventAt(host, rows, warn, i);
      && e.dtstart == e.dtend == rows[i].date
      && StartsWith(e.summary, Summary(rows[i].side))
      && EndsWith(e.description, Details(host, rows[i]))
  {
  }

  /**
   * `get_date_format`: the strftime pattern for the chosen date order, year
   * first for anything unrecognised.
   */
  function GetDateFormat(choice: string): (format: string)
    ensures format == "%d/%m/%Y" <==> choice == "DD/MM/YYYY"
    ensures format == "%m/%d/%Y" <==> choice == "MM/DD/YYYY"
    ensures format == "%Y/%m/%d" <==> choice != "DD/MM/YYYY" && choice != "MM/DD/YYYY"
  {
    if choice == "DD/MM/YYYY" then "%d/%m/%Y"
    else if choice == "MM/DD/YYYY" then "%m/%d/%Y"
    else "%Y/%m/%d"
  }
}
