/**
 * The axis labels: ages 0, 5, ..., 85 to the left of the grid, a single "90"
 * to its right one row past the last row, and week numbers every five
 * columns above it. On both PDF paths the first week label reads "1" and
 * every week label is centred over column (shown number - 1), so "5" sits
 * over column index 4; the PNG path shows "0", "5", ... over columns 0, 5, ...
 */
module Labels {
  import opened Layout
  import opened Drawing
  import opened Digits

  const LabelInterval: int := 5
  /** Number of age labels drawn by `age = 0; age < 90; age += 5`. */
  const AgeLabelCount: int := 18
  /** Number of week labels drawn by `week = 0; week <= 52` (`< 52` on the PNG path); `week += 5`. */
  const WeekLabelCount: int := 11

  /** Vertical centre of row `row`. */
  function RowCentre(g: Geometry, row: int): real {
    CellY(g, row) + g.box / 2.0
  }

  /** Horizontal centre of column `col`. */
  function ColumnCentre(g: Geometry, col: int): real {
    CellX(g, col) + g.box / 2.0
  }

  /** How far each surface shifts the age labels' baseline from the row centre. */
  function AgeBaseline(t: Target): real {
    match t
    case PdfJs => 1.0
    case PngJs => 0.0
    case PdfPy(_, _, mm) => -(1.0 * mm)
  }

  function AgeLabel(t: Target, g: Geometry, age: nat): (op: Op)
    ensures op.Text? && op.text == NatToString(age) && op.align == AlignRight
  {
    match t
    case PdfJs =>
      Text(NatToString(age), g.startX - 5.0, g.startY + age as real * Pitch(g) + g.box / 2.0 + 1.0, AlignRight)
    case PngJs =>
      Text(NatToString(age), CanvasMarginLeft - 95.0, CanvasMarginTop + age as real * Pitch(g) + g.box / 2.0, AlignRight)
    case PdfPy(_, _, mm) =>
      Text(NatToString(age), g.startX - 5.0 * mm, g.startY - age as real * Pitch(g) - g.box / 2.0 - 1.0 * mm, AlignRight)
  }

  function Age90Label(t: Target, g: Geometry): (op: Op)
    ensures op.Text? && op.text == "90" && op.align == AlignLeft
  {
    match t
    case PdfJs =>
      Text("90", g.startX + g.gridWidth + 5.0, g.startY + MaxYears as real * Pitch(g) + g.box / 2.0 + 1.0, AlignLeft)
    case PngJs =>
      Text("90", CanvasMarginLeft + g.gridWidth + 95.0, CanvasMarginTop + MaxYears as real * Pitch(g) + g.box / 2.0, AlignLeft)
    case PdfPy(_, _, mm) =>
      Text("90", g.startX + g.gridWidth + 5.0 * mm, g.startY - MaxYears as real * Pitch(g) - g.box / 2.0 - 1.0 * mm, AlignLeft)
  }

  /** The number a week label shows: week 0 is shown as 1 on both PDF paths. */
  function DisplayWeek(t: Target, week: nat): nat {
    if week == 0 && !t.PngJs? then 1 else week
  }

  /** The column a week label is centred over: the shown number minus one on the PDF paths, the number itself on the PNG path. */
  function WeekColumn(t: Target, week: nat): int {
    if t.PngJs? then week else DisplayWeek(t, week) - 1
  }

  function WeekLabel(t: Target, g: Geometry, week: nat): (op: Op)
    ensures op.Text? && op.text == NatToString(DisplayWeek(t, week)) && op.align == AlignCenter
  {
    match t
    case PdfJs =>
      var displayWeek := DisplayWeek(t, week);
      Text(NatToString(displayWeek), g.startX + (displayWeek - 1) as real * Pitch(g) + g.box / 2.0, g.startY - 2.0, AlignCenter)
    case PngJs =>
      Text(NatToString(week), CanvasMarginLeft + week as real * Pitch(g) + g.box / 2.0, CanvasMarginTop - 36.0, AlignCenter)
    case PdfPy(_, _, mm) =>
      var displayWeek := DisplayWeek(t, week);
      Text(NatToString(displayWeek), g.startX + (displayWeek - 1) as real * Pitch(g) + g.box / 2.0, g.startY + 2.0 * mm, AlignCenter)
  }

  /** The first k age labels, in drawing order. */
  function AgeLabels(t: Target, g: Geometry, k: nat): (ops: seq<Op>)
    ensures |ops| == k && AllTexts(ops)
    decreases k
  {
    if k == 0 then []
    else
      AllTextsAppend(AgeLabels(t, g, k - 1), [AgeLabel(t, g, LabelInterval * (k - 1))]);
      AgeLabels(t, g, k - 1) + [AgeLabel(t, g, LabelInterval * (k - 1))]
  }

  /** The i-th age label drawn is the one for age 5i. */
  lemma {:induction false} AgeLabelsAt(t: Target, g: Geometry, k: nat, i: int)
    requires 0 <= i < k
    ensures AgeLabels(t, g, k)[i] == AgeLabel(t, g, LabelInterval * i)
    decreases k
  {
    if i < k - 1 {
      AgeLabelsAt(t, g, k - 1, i);
    }
  }

  /** The first k week labels, in drawing order. */
  function WeekLabels(t: Target, g: Geometry, k: nat): (ops: seq<Op>)
    ensures |ops| == k && AllTexts(ops)
    decreases k
  {
    if k == 0 then []
    else
      AllTextsAppend(WeekLabels(t, g, k - 1), [WeekLabel(t, g, LabelInterval * (k - 1))]);
      WeekLabels(t, g, k - 1) + [WeekLabel(t, g, LabelInterval * (k - 1))]
  }

  /** The i-th week label drawn is the one for loop value 5i. */
  lemma {:induction false} WeekLabelsAt(t: Target, g: Geometry, k: nat, i: int)
    requires 0 <= i < k
    ensures WeekLabels(t, g, k)[i] == WeekLabel(t, g, LabelInterval * i)
    decreases k
  {
    if i < k - 1 {
      WeekLabelsAt(t, g, k - 1, i);
    }
  }

  /** All the labels, in drawing order: ages, "90", weeks. */
  function LabelOps(t: Target, g: Geometry): (ops: seq<Op>)
    ensures |ops| == AgeLabelCount + 1 + WeekLabelCount
    ensures AllTexts(ops)
  {
    var ages, weeks := AgeLabels(t, g, AgeLabelCount), WeekLabels(t, g, WeekLabelCount);
    AllTextsAppend(ages, [Age90Label(t, g)]);
    AllTextsAppend(ages + [Age90Label(t, g)], weeks);
    ages + [Age90Label(t, g)] + weeks
  }

  // ---- the loops ----

  method DrawAgeLabels(s: Surface, t: Target, g: Geometry)
    modifies s
    ensures s.ops == old(s.ops) + AgeLabels(t, g, AgeLabelCount)
  {
    var age := 0;
    ghost var drawn := 0;
    while age < MaxYears
      invariant 0 <= drawn <= AgeLabelCount && age == LabelInterval * drawn
      invariant s.ops == old(s.ops) + AgeLabels(t, g, drawn)
    {
      var op := AgeLabel(t, g, age);
      s.DrawText(op.text, op.x, op.y, op.align);
      age := age + LabelInterval;
      drawn := drawn + 1;
    }
    assert drawn == AgeLabelCount;
  }

  method DrawAge90Label(s: Surface, t: Target, g: Geometry)
    modifies s
    ensures s.ops == old(s.ops) + [Age90Label(t, g)]
  {
    var op := Age90Label(t, g);
    s.DrawText(op.text, op.x, op.y, op.align);
  }

  method DrawWeekLabels(s: Surface, t: Target, g: Geometry)
    modifies s
    ensures s.ops == old(s.ops) + WeekLabels(t, g, WeekLabelCount)
  {
    // `week < 52` on the PNG path, `week <= 52` on both PDF paths
    var limit := if t.PngJs? then WeeksPerYear else WeeksPerYear + 1;
    var week := 0;
    ghost var drawn := 0;
    while week < limit
      invariant limit == WeeksPerYear || limit == WeeksPerYear + 1
      invariant 0 <= drawn <= WeekLabelCount && week == LabelInterval * drawn
      invariant s.ops == old(s.ops) + WeekLabels(t, g, drawn)
    {
      var op := WeekLabel(t, g, week);
      s.DrawText(op.text, op.x, op.y, op.align);
      week := week + LabelInterval;
      drawn := drawn + 1;
    }
    assert drawn == WeekLabelCount;
  }

  method DrawLabels(s: Surface, t: Target, g: Geometry)
    modifies s
    ensures s.ops == old(s.ops) + LabelOps(t, g)
  {
    ghost var ages, age90, weeks := AgeLabels(t, g, AgeLabelCount), [Age90Label(t, g)], WeekLabels(t, g, WeekLabelCount);
    DrawAgeLabels(s, t, g);
    DrawAge90Label(s, t, g);
    AppendAssociative(old(s.ops), ages, age90);
    DrawWeekLabels(s, t, g);
    AppendAssociative(old(s.ops), ages + age90, weeks);
  }

  // ---- where the labels end up ----

  /** The facts about a surface's layout that label placement depends on. */
  predicate LabelFrame(t: Target, g: Geometry) {
    && g.axis == (if t.PdfPy? then BottomUp else TopDown)
    && (t.PngJs? ==> g.startX == CanvasMarginLeft && g.startY == CanvasMarginTop)
    && (t.PdfPy? ==> t.mm > 0.0)
    && g.gridHeight >= 0.0
  }

  /** Every configured surface's own layout has that shape. */
  lemma TargetLabelFrame(t: Target)
    requires Configured(t)
    ensures LabelFrame(t, TargetGeometry(t))
  {
    LayoutFits(t);
  }


  /**
   * The age labels read 0, 5, ..., 85 (18 of them, so none reads 90); the
   * i-th sits at the height of row 5i, shifted by the surface's baseline
   * offset, right-aligned to the left of the grid.
   */
  lemma AgeLabelsPlacement(t: Target, g: Geometry, i: int)
    requires LabelFrame(t, g)
    requires 0 <= i < AgeLabelCount
    ensures AgeLabels(t, g, AgeLabelCount)[i].Text?
    ensures AgeLabels(t, g, AgeLabelCount)[i].text == NatToString(LabelInterval * i)
    ensures DigitsValue(AgeLabels(t, g, AgeLabelCount)[i].text) == LabelInterval * i < MaxYears
    ensures AgeLabels(t, g, AgeLabelCount)[i].y == RowCentre(g, LabelInterval * i) + AgeBaseline(t)
    ensures AgeLabels(t, g, AgeLabelCount)[i].x < g.startX
    ensures AgeLabels(t, g, AgeLabelCount)[i].align == AlignRight
  {
    AgeLabelsAt(t, g, AgeLabelCount, i);
    AgeLabelPosition(t, g, LabelInterval * i);
    NatToStringRoundTrip(LabelInterval * i);
  }

  /** Where the label of loop value `age` goes. */
  lemma AgeLabelPosition(t: Target, g: Geometry, age: nat)
    requires LabelFrame(t, g)
    ensures AgeLabel(t, g, age).y == RowCentre(g, age) + AgeBaseline(t)
    ensures AgeLabel(t, g, age).x < g.startX
  {
  }

  /** "90" is drawn once, one row past the last row, to the right of the grid. */
  lemma Age90Placement(t: Target)
    requires Configured(t)
    ensures var g := TargetGeometry(t);
            var op := Age90Label(t, g);
            && op.Text?
            && DigitsValue(op.text) == MaxYears
            && op.y == RowCentre(g, MaxYears) + AgeBaseline(t)
            && op.x > g.startX + g.gridWidth
            && (g.axis == TopDown ==> RowCentre(g, MaxYears) > GridLow(g) + g.gridHeight)
            && (g.axis == BottomUp ==> RowCentre(g, MaxYears) < GridLow(g))
  {
    LayoutFits(t);
    var g := TargetGeometry(t);
    GridCorners(g, UsableArea(t));
    RowGap(g, MaxYears - 1, MaxYears);
    assert DigitsValue("90") == 90 by {
      assert "90"[..1] == "9";
    }
  }

  /**
   * The week labels: 11 of them. On the PDF paths they read 1, 5, 10, ...,
   * 50 and the one reading n is centred over column n - 1; on the PNG path
   * they read 0, 5, ..., 50 and the one reading n is centred over column n.
   * Either way every label is over a column of the grid and above the grid.
   */
  lemma WeekLabelsPlacement(t: Target, g: Geometry, i: int)
    requires LabelFrame(t, g)
    requires 0 <= i < WeekLabelCount
    ensures DisplayWeek(t, LabelInterval * i) == if i == 0 && !t.PngJs? then 1 else LabelInterval * i
    ensures WeekLabels(t, g, WeekLabelCount)[i].Text?
    ensures WeekLabels(t, g, WeekLabelCount)[i].text == NatToString(DisplayWeek(t, LabelInterval * i))
    ensures DigitsValue(WeekLabels(t, g, WeekLabelCount)[i].text) == DisplayWeek(t, LabelInterval * i)
    ensures 0 <= WeekColumn(t, LabelInterval * i) < WeeksPerYear
    ensures WeekLabels(t, g, WeekLabelCount)[i].x == ColumnCentre(g, WeekColumn(t, LabelInterval * i))
    ensures g.axis == TopDown ==> WeekLabels(t, g, WeekLabelCount)[i].y < GridLow(g)
    ensures g.axis == BottomUp ==> WeekLabels(t, g, WeekLabelCount)[i].y > GridLow(g) + g.gridHeight
  {
    var week := LabelInterval * i;
    WeekLabelsAt(t, g, WeekLabelCount, i);
    WeekLabelPosition(t, g, week);
    NatToStringRoundTrip(DisplayWeek(t, week));
  }

  /** Where the label of loop value `week` goes. */
  lemma WeekLabelPosition(t: Target, g: Geometry, week: nat)
    requires LabelFrame(t, g)
    ensures var op := WeekLabel(t, g, week);
            && op.x == ColumnCentre(g, WeekColumn(t, week))
            && (g.axis == TopDown ==> op.y < GridLow(g))
            && (g.axis == BottomUp ==> op.y > GridLow(g) + g.gridHeight)
  {
    match t
    case PdfJs =>
    case PngJs =>
    case PdfPy(_, _, mm) =>
      assert GridLow(g) + g.gridHeight == g.startY;
  }
}
