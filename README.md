# HRT injection calendar — a Dafny model

HRTCalendarSL turns a vial of injectable hormone into an injection
schedule. The inputs are a dose, the vial's total volume, its
concentration, the days between injections and a start date. Starting
from a full vial, the program emits one row per injection while the vial
can still supply a full dose. Each row records:

- the injection count;
- the date;
- the volume left before the dose, rounded to two places;
- the days elapsed, and the same figure in months (days / 30, rounded);
- the side to inject, which flips after every row.

The repository holds five variants of this loop, and this model covers all
of them:

- **app.py** (Streamlit, current). A `Form` whose dose is in mg or mL.
  Its `generate_calendar` returns a metadata record and the schedule. Two
  exports are modelled: `export_to_excel` (metadata block, then schedule
  block, then column widths) and `export_to_ical` (one all-day event per
  row, with an optional warning on the second-to-last dose). Also
  modelled: `validate_fields` and `get_date_format`.
- **main.py** (Streamlit, earlier). `BaseForm`, `DosageForm` and
  `VolumeForm`, with two free metadata builders.
- **rough.py** (Streamlit, first). Two tabs, each filling a worksheet
  cell by cell.
- **code.py** and **code_EN.py** (desktop, Portuguese and English). A
  "Gerar"/"Generate" handler that parses text fields and fills the same
  worksheet layout as rough.py.

## Layout of the model

| file | module | what it holds |
|---|---|---|
| `wrappers.dfy` | `Wrappers` | `Option`, `Result` |
| `text.dfy` | `Text` | `str(int)` as `IntText` with its inverse; the `Host` functions standing for float `repr` and `strftime` |
| `volumes.dfy` | `Volumes` | `round(x, 2)` (half-to-even) as `Round2`; the number of whole doses in a vial, `DoseCount` |
| `schedule.dfy` | `Schedule` | the shared loop: `Generate` (a `while` loop) proved against `RowAt`/`RowCount`; side flipping |
| `sheet.dfy` | `Sheet` | openpyxl's worksheet as a class `Worksheet` (cells and column widths, updated in place); the width loop |
| `app.dfy` | `App` | app.py |
| `main_forms.dfy` | `MainForms` | main.py |
| `desktop.dfy` | `Desktop` | the cell-by-cell worksheet shared by rough.py, code.py and code_EN.py, parameterised by a `Variant` |
| `rough.dfy`, `code_pt.dfy`, `code_en.dfy` | `Rough`, `CodePt`, `CodeEn` | each program's labels, flip rule and handler |

Modelling choices:

- **Volumes.** Volumes are exact `real`s, and dates are day numbers (`int`).
- **Row dates.** A row's date is the start date plus the days elapsed.
- **Number of rows.** It is the largest `n` with `n * dose <= total`
  (`Volumes.DoseCountIsLargest`). It is 0 when the vial holds less than
  one dose.
- **Sides.** A side is a string. `FlipRule(from, to, otherwise)` says
  what the next side is.
- **Worksheets.** A worksheet maps (row, column) to a `Cell` (string,
  int or float). A cell that was never written is absent from the map.
  Writing `None` leaves a cell as it was, because openpyxl assigns only
  values that are not `None`. On a fresh sheet the cell therefore stays
  empty.
- **Blank text fields.** In app.py the name and ester widgets give `None`
  until something is typed, and `validate_fields` does not require them.
  They are `Option<string>`, and a blank one leaves its metadata cell
  empty.
- **Column widths.** There are two measures.
  - app.py uses `len(str(cell.value))`, where an empty cell counts as
    `"None"`.
  - The three cell-by-cell programs use `len(str(cell.value or ""))`,
    where empty, `""`, `0` and `0.0` count as nothing.

## What the code does where the comments or the obvious intent say otherwise

Each of these is modelled as written.

- **code_EN.py:137.** The flip is `"Right" if side == "Left" else "Right"`.
  Every row after the first is on the Right (`CodeEn.SidesAsWritten`,
  `CodeEn.NoAlternation`). code.py and rough.py alternate.
- **rough.py:137-145, tab "By Injection".** The tab reads an injection
  amount, a name and an HRT, then uses none of them. Its worksheet uses
  the first tab's name, HRT, dose and concentration together with its own
  volume, interval and start date (`Rough.GenerateByInjection`).
- **app.py:135-138 and main.py:70-73.** The "Lasts" figure is the final
  injection counter, which is one more than the number of rows
  (`App.GenerateCalendar`, `MainForms.DosageGenerateCalendar`).
- **app.py:178.** The comment promises a two-row gap between the metadata
  and the schedule. `len(metadata_df) + 3` leaves exactly one empty row
  (`App.OneRowMetadataLayout`).
- **main.py:158-166.** `generate_metadata_byobj` branches on `dosetype`,
  then discards what the branches computed (`MainForms.ByObjIgnoresDoseType`).
- **code.py:97-98.** The Portuguese worksheet writes no unit after the
  B8 formula. The other two programs write "Doses".

## Model

| member | source | states |
|---|---|---|
| Text.IntText | app.py:71 | `str(int)`: non-empty, with a leading `-` exactly for negative numbers |
| Text.DigitsRoundTrip | app.py:71 | reading back the decimal digits of a natural number gives the number |
| Text.IntTextRoundTrip | app.py:71 | `int(str(i)) == i`: parsing the text back gives the integer |
| Volumes.Round2 | app.py:126 | `round(x, 2)` lies within half a hundredth of `x`, is a whole number of hundredths, and goes to the even hundredth on an exact tie |
| Volumes.Round2Monotonic | app.py:126 | rounding to hundredths preserves order |
| Volumes.DoseCountIsLargest | app.py:119 | no more than `DoseCount` doses fit, and `DoseCount + 1` do not |
| Volumes.DoseCountUnique | app.py:119 | any `n` with `n * dose <= total < (n + 1) * dose` is `DoseCount` |
| Schedule.AlternationParity | app.py:134 | under strict alternation, row `i` is on the starting side exactly when `i` is even |
| Schedule.AlternationAlternates | app.py:134 | under strict alternation, consecutive rows are on different sides, each one of the two labels |
| Schedule.EmittedIff | app.py:119 | row `i` exists exactly when the volume left before it is at least one dose |
| Schedule.RemainingNonIncreasing | app.py:126-130 | "Remaining mL" never increases down the schedule |
| Schedule.LeftoverBelowOneDose | app.py:119-130 | after the last row, the vial holds less than one dose and a non-negative volume |
| Schedule.Generate | app.py:108-136 | the loop yields exactly `RowCount` rows, row `i` equal to `RowAt(i)`, and a final counter of rows + 1 |
| Sheet.Labels | app.py:179 | one string cell per column name, in order |
| Sheet.ColumnMaxIsMaximum | app.py:188-198 | the measured width bounds every cell of the column and is attained by one of them |
| Sheet.Worksheet.Put | app.py:171 | `ws.cell(row, column, value)` sets that one cell and changes nothing else |
| Sheet.Worksheet.Set | app.py:171 | `ws.cell(row, column, value)` with a value that may be `None`: the cell holds the value, or keeps what it held for `None`; nothing else changes |
| Sheet.Worksheet.PutRow | rough.py:101-107 | a run of values lands in consecutive columns of one row, a `None` value keeping its cell as it was; other cells are unchanged |
| Sheet.Worksheet.PutRows | app.py:169-171 | each line lands in consecutive rows from the first, a `None` value keeping its cell as it was; other cells are unchanged |
| Sheet.Worksheet.SetColumnWidths | app.py:188-198 | every column up to the last gets its longest cell text + 2; cells and other widths are unchanged |
| App.ValidateFields | app.py:78-85 | true exactly when interval, start date, dose, total volume and concentration are all filled in |
| App.DoseMl | app.py:113-116 | in mg mode, the volume times the concentration is the dose; in mL mode, it is the dose |
| App.GenerateMetadata | app.py:47-76 | the mL dose times the concentration gives the mg dose; the mL dose is what each injection takes; "Lasts" is the figure passed in |
| App.GenerateCalendar | app.py:87-140 | `DoseCount(total, dose in mL)` rows, each `RowAt` of the form's plan; metadata whose "Lasts" is rows + 1 |
| App.SidesAlternate | app.py:110-134 | from either starting side, sides alternate: even rows on the starting side, odd rows on the other |
| App.Lines | app.py:169-179 | `dataframe_to_rows` with a header: the column names, then every row unchanged |
| App.MetadataFrame | app.py:63-75 | the metadata DataFrame has one row with one value per column |
| App.CalendarFrame | app.py:137-139 | the calendar DataFrame has one row per schedule row, each with a value per column |
| App.ExportToExcel | app.py:149-207 | nothing when a frame is missing; else a fresh sheet with the metadata from row 1, the schedule from `len(metadata) + 3`, and widths = longest `str(value)` + 2 |
| App.OneRowMetadataLayout | app.py:166-181 | with one metadata row: header in row 1, row 3 empty, schedule header in row 4, schedule row `i` in row 5 + i |
| App.BlankNameAndEster | app.py:64-65 | a blank name or ester leaves A2 or B2 empty, and a filled one puts its text there |
| App.ExcelWidthsAtLeastSix | app.py:188-198 | the empty gap row reads "None", so every measured column is at least 6 wide |
| App.ExportToIcal | app.py:213-267 | nothing when the schedule is missing; else a calendar with the fixed PRODID and VERSION and one event per row, in order |
| App.WarningPlacement | app.py:234-246 | the summary carries the second-to-last mark, and the description opens with the refill line, exactly on the second-to-last row when the warning is on and there are two rows or more |
| App.EventCarriesRow | app.py:240-258 | each event is all-day on its row's date, names its side, and ends with the row's count, volume, days and months |
| App.GetDateFormat | app.py:272-287 | "DD/MM/YYYY" gives `%d/%m/%Y`, "MM/DD/YYYY" gives `%m/%d/%Y`, anything else gives year first; each iff |
| MainForms.BaseGenerateCalendar | main.py:12-13 | the base form always fails with "Subclasses should implement this method!" |
| MainForms.GenerateMetadata | main.py:143-156 | the dose counts as mg; the mL dose times the concentration is the dose; "Lasts" is the count followed by " doses" |
| MainForms.GenerateMetadataByObj | main.py:158-176 | the record reports the dose in mg, the dose over the concentration in mL, and the count in doses |
| MainForms.ByObjIgnoresDoseType | main.py:158-166 | the result is the same whatever dose type is passed |
| MainForms.DosageGenerateCalendar | main.py:34-78 | `DoseCount(total, dose / concentration)` rows, each `RowAt`; metadata with "Lasts" = rows + 1 |
| MainForms.VolumeGenerateCalendar | main.py:92-132 | `DoseCount(total, injection amount)` rows, each `RowAt` of the volume plan |
| MainForms.GetDateFormat | main.py:134-141 | agrees with app.py's `get_date_format` on every input |
| Desktop.WriteHeading | rough.py:42-70 | the title in B2 and the labels and figures of rows 4 to 8, and nothing else |
| Desktop.FillSchedule | rough.py:80-114 | the loop writes `RowCount` rows from row 13, row `i` holding `RowAt(i)` in columns A to G; the last row written is 12 + RowCount |
| Desktop.NewSheet | rough.py:26-126 | a fresh sheet holding every cell as `LayoutAt` describes it, and widths for columns A to G only, each the longest `str(value or "")` + 2 |
| Desktop.Build | rough.py:42-126 | every cell is as `LayoutAt` describes; columns A to G are their longest `str(value or "")` + 2 wide |
| Desktop.HeaderLabels | rough.py:73-78 | row 12 holds the six labels in columns B to G and nothing in A |
| Desktop.DataRowPlacement | rough.py:101-107 | schedule row `i` sits in row 13 + i with its count, side and volume left; nothing lies below the last row |
| Desktop.FirstDaysCellMeasuresEmpty | rough.py:124 | the first row's 0 days counts as empty text in the width loop |
| Desktop.LastsFormulaWholePart | rough.py:69 | the whole part of the B8 formula's value is the number of rows written |
| Rough.GenerateByDose | rough.py:15-126 | a fresh sheet laid out for the tab's inputs; columns A to G as wide as their longest `str(value or "")` + 2 |
| Rough.GenerateByInjection | rough.py:137-247 | the same sheet, cells and widths, built from tab 1's name, HRT, dose and concentration and this tab's volume, interval and start |
| Rough.SidesAlternate | rough.py:83-112 | Left on even rows, Right on odd ones |
| CodePt.Gerar | code.py:39-171 | the parse-error popup exactly when a field fails to parse; otherwise a fresh sheet with the Portuguese layout, columns A to G as wide as their longest `str(value or "")` + 2 |
| CodePt.SidesAlternate | code.py:111-138 | Esquerdo on even rows, Direito on odd ones |
| CodeEn.Generate | code_EN.py:38-170 | the parse-error popup exactly when a field fails to parse; otherwise a fresh sheet with the English layout, columns A to G as wide as their longest `str(value or "")` + 2 |
| CodeEn.SidesAsWritten | code_EN.py:110-137 | the first row is on the Left and every later row on the Right |
| CodeEn.NoAlternation | code_EN.py:137 | rows 2 and 3 are both on the Right: the sides do not alternate |

## Left out

- **User interface.** The Streamlit widgets, the PySimpleGUI window, the
  popups other than the parse-error message, the on-screen row printing,
  and the DataFrame display. The form fields are parameters.
- **Styling.** Fills, fonts, borders, alignment, merged cells, number
  formats and gridlines.
- **Files and buffers.** Saving the workbook to the Downloads folder or
  to a byte buffer, serialising the iCalendar file, and the
  `PermissionError` branches.
- **Generic exception handlers.** The `except Exception` branches of
  `export_to_excel` and `export_to_ical`. No modelled step raises.
- **Float text.** Python's float `repr` and `strftime`, including weekday
  names, are `Host` functions. Their text is not modelled.
- **Today's date.** `date.today()` is a parameter.
- **iCalendar dates.** Dates are written with `%Y-%m-%d` and read back
  with `strptime`. This round trip is taken as the identity on day
  numbers.
- Volumes.Round2: rounds the exact real value half-to-even. It does not
  model binary floating point, so `round` of a value that is not exactly
  representable may differ in the last place.
- Schedule.Generate: subtracts doses exactly. The source's repeated float
  subtraction can drift. A few units in the last place can drop the last
  row when the vial holds an exact multiple of the dose, and can add one
  when it holds just under a multiple.
- **Zero concentration and non-positive dose volumes.** Both are
  preconditions, so the model says nothing about them.
  - A concentration of 0 in mg mode (and in every desktop program) makes
    the source raise `ZeroDivisionError`.
  - A dose volume of 0 or less makes the loop run forever when the total
    is at least that volume.
  - When the total is below a non-positive dose volume, the loop never
    runs and an empty schedule is written. This needs negative inputs,
    which `float()` accepts in code.py:44-46 and code_EN.py:42-44.
- **Duplicate widgets.** rough.py creates each of these twice, without a
  key:
  - `st.text_input("Your Name")` at rough.py:16 and rough.py:138;
  - `st.button("Generate")` at rough.py:24 and rough.py:145;
  - the volume, interval and start-date inputs.

  Streamlit normally rejects duplicate widgets, which would make the
  second tab's handler unreachable. The model ignores this: each tab reads
  its own inputs, and `Rough.GenerateByInjection` is its handler as
  written.
- **Width scan extent.** openpyxl's `ws.columns` scans up to the last
  row and column that hold a cell. The model fixes that extent: for the
  cell-by-cell programs, rows 1 to 12 + rows and columns 1 to 7; for
  app.py, as `App.ExcelMaxRow` and `App.ExcelMaxCol` state.
