/**
 * The English desktop program (code_EN.py): the same handler as the
 * Portuguese one with English labels, except that its side flip,
 * `"Right" if side == "Left" else "Right"`, never returns to Left.
 */
module CodeEn {
  import opened Wrappers
  import opened Schedule
  import opened Sheet
  import opened Text
  import opened Desktop

  const Headers := ["Date", "mL Remaining", "Consecutive days", "Months", "Side", "Nbr. of injections"]

  /** The flip as written: both branches give Right. */
  const NeverBack := FlipRule("Left", "Right", "Right")

  const Layout := Variant("Today:", "Interval:", "Start date", "Lasts:", Some("Doses"), "days",
                          Headers, "Left", NeverBack)

  const ParseError := "Error: verify the values. Make sure to follow the DD/MM/YYY format."

  /** The window's fields after parsing; `None` where parsing raised ValueError. */
  datatype Fields = Fields(
    name: string,
    ester: string,
    dose: Option<real>,
    totalVolume: Option<real>,
    concentration: Option<real>,
    interval: Option<int>,
    start: Option<int>)

  predicate Parsed(f: Fields)
  {
    f.dose.Some? && f.totalVolume.Some? && f.concentration.Some? && f.interval.Some? && f.start.Some?
  }

  function InputsOf(f: Fields): Inputs
    requires Parsed(f)
  {
    Inputs(f.name, f.ester, f.dose.value, f.totalVolume.value, f.concentration.value, f.interval.value,
           f.start.value)
  }

  /**
   * The "Generate" handler: the parse-error popup when any field failed to
   * parse; otherwise a fresh worksheet holding the layout for the fields,
   * columns A to G as wide as their longest `str(value or "")` + 2.
   */
  method Generate(host: Host, f: Fields) returns (out: Result<Worksheet, string>)
    requires Parsed(f) ==> Usable(InputsOf(f))
    ensures out.Failure? <==> !Parsed(f)
    ensures out.Failure? ==> out.error == ParseError
    ensures out.Success? ==> fresh(out.value) && Generated(out.value, host, Layout, InputsOf(f))
  {
    if !Parsed(f) {
      return Failure(ParseError);
    }
    var ws := NewSheet(host, Layout, InputsOf(f));
    out := Success(ws);
  }

  /**
   * The first row is on the Left and every later row on the Right: both
   * branches of the flip give Right, whatever the previous side was.
   */
  lemma SidesAsWritten(x: Inputs, i: nat)
    requires x.concentration != 0.0
    ensures RowAt(PlanOf(Layout, x), i).side == if i == 0 then "Left" else "Right"
  {
  }

  /** So rows 1 and 2 (0-based) are on the same side: the sides do not alternate. */
  lemma NoAlternation(x: Inputs)
    requires x.concentration != 0.0
    ensures RowAt(PlanOf(Layout, x), 1).side == RowAt(PlanOf(Layout, x), 2).side == "Right"
  {
    SidesAsWritten(x, 1);
    SidesAsWritten(x, 2);
  }
}
