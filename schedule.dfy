/**
 * The injection-schedule loop shared by every variant of the program:
 * starting from a full vial, emit one row per injection while the vial
 * can still supply a full dose, recording the volume left before the dose,
 * the days elapsed, the injection date and the side to inject.
 */
module Schedule {
  import opened Volumes

  /**
   * How the loop picks the next side: `to` after `from`, `otherwise` after
   * anything else (`"Right" if side == "Left" else "Left"` is
   * `FlipRule("Left", "Right", "Left")`).
   */
  datatype FlipRule = FlipRule(from: string, to: string, otherwise: string)

  function Flip(rule: FlipRule, side: string): string
  {
    if side == rule.from then rule.to else rule.otherwise
  }

  /** The side of injection `i` (0-based): `first` flipped `i` times. */
  function SideAt(rule: FlipRule, first: string, i: nat): string
    decreases i
  {
    if i == 0 then first else Flip(rule, SideAt(rule, first, i - 1))
  }

  /** The strict alternation between two labels `a` and `b`. */
  function Alternation(a: string, b: string): FlipRule
  {
    FlipRule(a, b, a)
  }

  /** `"Right" if side == "Left" else "Left"`: Left and Right take turns. */
  const LeftRight := Alternation("Left", "Right")

  /**
   * Under strict alternation between two different labels, starting from
   * either of them, injection `i` is on the starting side when `i` is even
   * and on the other side when it is odd.
   */
  lemma {:induction false} AlternationParity(a: string, b: string, first: string, i: nat)
    requires a != b && (first == a || first == b)
    ensures SideAt(Alternation(a, b), first, i) == if i % 2 == 0 then first else (if first == a then b else a)
    decreases i
  {
    if i > 0 {
      AlternationParity(a, b, first, i - 1);
    }
  }

  /** Under strict alternation, consecutive injections are on different sides, both of them a or b. */
  lemma AlternationAlternates(a: string, b: string, first: string, i: nat)
    requires a != b && (first == a || first == b)
    ensures SideAt(Alternation(a, b), first, i) in {a, b}
    ensures SideAt(Alternation(a, b), first, i + 1) != SideAt(Alternation(a, b), first, i)
  {
    AlternationParity(a, b, first, i);
    AlternationParity(a, b, first, i + 1);
  }

  /** The inputs of one generation: volumes in mL, dates as day ordinals. */
  datatype Plan = Plan(
    total: real,       // volume of the vial
    doseMl: real,      // volume of one injection
    interval: int,     // days between injections
    start: int,        // date of the first injection
    firstSide: string,
    flip: FlipRule)

  /** One row of the schedule, as the loop appends it. */
  datatype Row = Row(
    count: int,        // "Injection Count": 1-based
    date: int,         // injection date
    remaining: real,   // "Remaining mL": round(volume before this dose, 2)
    days: int,         // "Days": elapsed since the start date
    months: real,      // "Months": round(days / 30, 2)
    side: string)

  /** The exact volume left in the vial before injection `i` (0-based). */
  function Remaining(p: Plan, i: nat): real
  {
    p.total - (i as real) * p.doseMl
  }

  /** The number of rows: every dose the vial can supply in full. */
  function RowCount(p: Plan): nat
    requires p.doseMl > 0.0
  {
    DoseCount(p.total, p.doseMl)
  }

  /** What row `i` (0-based) of the schedule holds. */
  function RowAt(p: Plan, i: nat): Row
  {
    var days := i * p.interval;
    Row(i + 1, p.start + days, Round2(Remaining(p, i)), days,
        Round2(days as real / 30.0), SideAt(p.flip, p.firstSide, i))
  }

  /** One turn of the loop: a dose less in the vial, one interval more elapsed. */
  lemma Step(p: Plan, i: nat)
    ensures Remaining(p, i + 1) == Remaining(p, i) - p.doseMl
    ensures (i + 1) * p.interval == i * p.interval + p.interval
  {
  }

  /** Row `i` is emitted exactly when the vial still holds a full dose before it. */
  lemma EmittedIff(p: Plan, i: nat)
    requires p.doseMl > 0.0
    ensures i < RowCount(p) <==> Remaining(p, i) >= p.doseMl
  {
    DoseCountIsLargest(p.total, p.doseMl, i + 1);
    ScaleMonotonic(i + 1, RowCount(p), p.doseMl);
  }

  /** "Remaining mL" never increases down the schedule. */
  lemma RemainingNonIncreasing(p: Plan, i: nat, j: nat)
    requires p.doseMl > 0.0
    requires i <= j
    ensures RowAt(p, j).remaining <= RowAt(p, i).remaining
  {
    ScaleMonotonic(i, j, p.doseMl);
    Round2Monotonic(Remaining(p, j), Remaining(p, i));
  }

  /** After the last row fewer than one dose is left, and never a negative volume. */
  lemma LeftoverBelowOneDose(p: Plan)
    requires p.doseMl > 0.0
    requires p.total >= 0.0
    ensures 0.0 <= Remaining(p, RowCount(p)) < p.doseMl
  {
    DoseCountIsLargest(p.total, p.doseMl, 0);
  }

  /**
   * The generation loop: appends one row per injection while
   * `remaining >= doseMl`, then reports the next injection number, which is
   * one more than the number of rows.
   */
  method Generate(p: Plan) returns (rows: seq<Row>, nextCount: int)
    requires p.doseMl > 0.0
    ensures |rows| == RowCount(p)
    ensures forall i :: 0 <= i < |rows| ==> rows[i] == RowAt(p, i)
    ensures nextCount == |rows| + 1
  {
    rows := [];
    var count := 1;
    var side := p.firstSide;
    var days := 0;
    var remaining := p.total;
    while remaining >= p.doseMl
      invariant |rows| <= RowCount(p)
      invariant count == |rows| + 1
      invariant remaining == Remaining(p, |rows|)
      invariant days == |rows| * p.interval
      invariant side == SideAt(p.flip, p.firstSide, |rows|)
      invariant forall i :: 0 <= i < |rows| ==> rows[i] == RowAt(p, i)
      decreases RowCount(p) - |rows|
    {
      EmittedIff(p, |rows|);
      Step(p, |rows|);
      rows := rows + [Row(count, p.start + days, Round2(remaining), days,
                          Round2(days as real / 30.0), side)];
      remaining := remaining - p.doseMl;
      days := days + p.interval;
      side := Flip(p.flip, side);
      count := count + 1;
    }
    EmittedIff(p, |rows|);
    nextCount := count;
  }
}
