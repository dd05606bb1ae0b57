/**
 * The first Streamlit program (rough.py): two tabs, "By Dose" and "By
 * Injection", each of whose "Generate" button builds the worksheet of the
 * shared layout with English labels, starting on the Left side.
 */
module Rough {
  import opened Wrappers
  import opened Schedule
  import opened Sheet
  import opened Text
  import opened Desktop

  const Headers := ["Date", "mL Remaining", "Consecutive days", "Months", "Side", "Nbr. of injections"]

  const Layout := Variant("Today:", "Interval:", "Start date", "Lasts:", Some("Doses"), "days",
                          Headers, "Left", LeftRight)

  /**
   * Tab "By Dose": a fresh worksheet holding the layout for the tab's own
   * inputs, with one schedule row per dose of dose / concentration mL and
   * columns A to G as wide as their longest `str(value or "")` + 2.
   */
  method GenerateByDose(host: Host, name: string, hrt: string, dose: real, totalVolume: real,
                        concentration: real, interval: int, startDate: int) returns (ws: Worksheet)
    requires Usable(Inputs(name, hrt, dose, totalVolume, concentration, interval, startDate))
    ensures fresh(ws)
    ensures Generated(ws, host, Layout, Inputs(name, hrt, dose, totalVolume, concentration, interval, startDate))
  {
    ws := NewSheet(host, Layout, Inputs(name, hrt, dose, totalVolume, concentration, interval, startDate));
  }

  /**
   * Tab "By Injection": the injection amount (and the tab's own name and
   * HRT) are read but never used. The worksheet is the one tab "By Dose"
   * would build from the first tab's name, HRT, dose and concentration with
   * this tab's volume, interval and start date.
   */
  method GenerateByInjection(host: Host, name: string, hrt: string, dose: real, concentration: real,
                             name2: string, hrt2: string, injection: real,
                             totalVolume: real, interval: int, startDate: int) returns (ws: Worksheet)
    requires Usable(Inputs(name, hrt, dose, totalVolume, concentration, interval, startDate))
    ensures fresh(ws)
    ensures Generated(ws, host, Layout, Inputs(name, hrt, dose, totalVolume, concentration, interval, startDate))
  {
    ws := NewSheet(host, Layout, Inputs(name, hrt, dose, totalVolume, concentration, interval, startDate));
  }

  /** The side starts at Left and alternates: Left on even rows, Right on odd ones. */
  lemma SidesAlternate(x: Inputs, i: nat)
    requires x.concentration != 0.0
    ensures RowAt(PlanOf(Layout, x), i).side == if i % 2 == 0 then "Left" else "Right"
  {
    AlternationParity("Left", "Right", "Left", i);
  }
}
