/**
 * The grid layout: a box size that lets 52 columns and 90 rows, with gaps of
 * half a box, fit the usable area of the output surface, and the grid origin
 * on that surface. Three surfaces use it: the browser PDF page (millimetres,
 * y grows downward, grid centred), the browser PNG canvas (pixels, y grows
 * downward, grid pinned to the top-left margins) and the Python PDF page
 * (points, y grows upward, grid centred). Arithmetic is exact (`real`).
 */
module Layout {

  const WeeksPerYear: int := 52
  const MaxYears: int := 90
  const TotalWeeks: int := WeeksPerYear * MaxYears
  const SpacingFactor: real := 0.5

  /** Length of n boxes and the n-1 gaps between them, in box sizes: 77.5 for 52, 134.5 for 90. */
  function Span(n: int): real {
    n as real + (n - 1) as real * SpacingFactor
  }

  /** `Math.min` / `min` */
  function Min(a: real, b: real): real {
    if a <= b then a else b
  }

  /**
   * The box size: the smaller of the width-bound and the height-bound
   * candidate. The binding axis is filled exactly; there is no guard against
   * a usable area of zero or less, so the box is positive only when both
   * usable extents are.
   */
  function BoxSize(usableWidth: real, usableHeight: real): (box: real)
    ensures box * Span(WeeksPerYear) <= usableWidth
    ensures box * Span(MaxYears) <= usableHeight
    ensures box * Span(WeeksPerYear) == usableWidth || box * Span(MaxYears) == usableHeight
    ensures box > 0.0 <==> usableWidth > 0.0 && usableHeight > 0.0
  {
    Min(usableWidth / Span(WeeksPerYear), usableHeight / Span(MaxYears))
  }

  /** No larger box would fit both axes. */
  lemma BoxSizeIsLargest(usableWidth: real, usableHeight: real, other: real)
    requires other * Span(WeeksPerYear) <= usableWidth && other * Span(MaxYears) <= usableHeight
    ensures other <= BoxSize(usableWidth, usableHeight)
  {
  }

  /** Which way the surface's y coordinate grows. */
  datatype Axis = TopDown | BottomUp

  /** The values the generators compute before drawing. */
  datatype Geometry = Geometry(
    axis: Axis,
    box: real,
    spacing: real,
    gridWidth: real,
    gridHeight: real,
    startX: real,
    startY: real)

  /** A rectangle of the surface: x in [left, left+width], y in [low, low+height]. */
  datatype Area = Area(left: real, low: real, width: real, height: real)

  /** Distance between the origins of neighbouring cells. */
  function Pitch(g: Geometry): real {
    g.box + g.spacing
  }

  /** x of the cell in column `week`. */
  function CellX(g: Geometry, week: int): real {
    g.startX + week as real * Pitch(g)
  }

  /** y of the cell in row `year` (its top edge when y grows downward, its bottom edge when it grows upward). */
  function CellY(g: Geometry, year: int): real {
    match g.axis
    case TopDown => g.startY + year as real * Pitch(g)
    case BottomUp => g.startY - year as real * Pitch(g) - g.box
  }

  /** The smallest y the grid covers. */
  function GridLow(g: Geometry): real {
    match g.axis
    case TopDown => g.startY
    case BottomUp => g.startY - g.gridHeight
  }

  /** The box sizes are consistent and the whole grid lies in the area. */
  predicate WellFormed(g: Geometry, a: Area) {
    && g.box > 0.0
    && g.spacing == g.box * SpacingFactor
    && g.gridWidth == WeeksPerYear as real * g.box + (WeeksPerYear - 1) as real * g.spacing
    && g.gridHeight == MaxYears as real * g.box + (MaxYears - 1) as real * g.spacing
    && a.left <= g.startX && g.startX + g.gridWidth <= a.left + a.width
    && a.low <= GridLow(g) && GridLow(g) + g.gridHeight <= a.low + a.height
  }

  /** The leftover space is split evenly on both sides, on both axes. */
  predicate CentredIn(g: Geometry, a: Area) {
    && g.startX - a.left == (a.left + a.width) - (g.startX + g.gridWidth)
    && GridLow(g) - a.low == (a.low + a.height) - (GridLow(g) + g.gridHeight)
  }

  /** The grid fills the area along at least one axis. */
  predicate Binding(g: Geometry, a: Area) {
    g.gridWidth == a.width || g.gridHeight == a.height
  }

  /** The layout of both PDF paths: grid centred in the usable area. */
  function CentredLayout(axis: Axis, a: Area): (g: Geometry)
    ensures g.axis == axis && CentredIn(g, a)
  {
    var box := BoxSize(a.width, a.height);
    var spacing := box * SpacingFactor;
    var gridWidth := WeeksPerYear as real * box + (WeeksPerYear - 1) as real * spacing;
    var gridHeight := MaxYears as real * box + (MaxYears - 1) as real * spacing;
    var startX := a.left + (a.width - gridWidth) / 2.0;
    var startY :=
      match axis
      case TopDown => a.low + (a.height - gridHeight) / 2.0
      case BottomUp => (a.low + a.height) - (a.height - gridHeight) / 2.0;
    Geometry(axis, box, spacing, gridWidth, gridHeight, startX, startY)
  }

  /** The layout of the PNG path: grid origin at the top-left margins, no centring. */
  function PinnedLayout(a: Area): (g: Geometry)
    ensures g.axis == TopDown && g.startX == a.left && g.startY == a.low
    ensures g.gridWidth == WeeksPerYear as real * g.box + (WeeksPerYear - 1) as real * g.spacing
  {
    var box := BoxSize(a.width, a.height);
    var spacing := box * 0.5;
    var gridWidth := WeeksPerYear as real * (box + spacing) - spacing;
    var gridHeight := MaxYears as real * box + (MaxYears - 1) as real * spacing;
    Geometry(TopDown, box, spacing, gridWidth, gridHeight, a.left, a.low)
  }

  // ---- the three output surfaces ----

  datatype Target =
    | PdfJs
    | PngJs
    | PdfPy(pageWidth: real, pageHeight: real, mm: real)

  const PdfPageWidth: real := 210.0
  const PdfPageHeight: real := 297.0
  const PdfMargin: real := 15.0
  const PdfLabelSpaceLeft: real := 20.0
  const PdfLabelSpaceTop: real := 20.0

  const CanvasWidth: real := 2480.0
  const CanvasHeight: real := 3508.0
  const CanvasMarginLeft: real := 414.0
  const CanvasMarginTop: real := 473.0
  const CanvasMarginRight: real := 177.0
  const CanvasMarginBottom: real := 177.0

  /** The area left for the grid once margins and label gutters are taken off. */
  function UsableArea(t: Target): Area {
    match t
    case PdfJs =>
      Area(PdfMargin + PdfLabelSpaceLeft, PdfMargin + PdfLabelSpaceTop,
           PdfPageWidth - 2.0 * PdfMargin - PdfLabelSpaceLeft,
           PdfPageHeight - 2.0 * PdfMargin - PdfLabelSpaceTop)
    case PngJs =>
      Area(CanvasMarginLeft, CanvasMarginTop,
           CanvasWidth - CanvasMarginLeft - CanvasMarginRight,
           CanvasHeight - CanvasMarginTop - CanvasMarginBottom)
    case PdfPy(pageWidth, pageHeight, mm) =>
      // margin = 15mm, label_space_left = label_space_top = 20mm; y grows upward,
      // so the usable area starts at the bottom margin
      Area(15.0 * mm + 20.0 * mm, 15.0 * mm,
           pageWidth - 2.0 * (15.0 * mm) - 20.0 * mm,
           pageHeight - 2.0 * (15.0 * mm) - 20.0 * mm)
  }

  function TargetGeometry(t: Target): Geometry {
    match t
    case PdfJs => CentredLayout(TopDown, UsableArea(t))
    case PngJs => PinnedLayout(UsableArea(t))
    case PdfPy(_, _, _) => CentredLayout(BottomUp, UsableArea(t))
  }

  /** The page set-up the layout needs: a positive unit and a positive usable area. */
  predicate Configured(t: Target) {
    && UsableArea(t).width > 0.0
    && UsableArea(t).height > 0.0
    && (t.PdfPy? ==> t.mm > 0.0)
  }

  /** The two browser surfaces are configured by their constants. */
  lemma BrowserTargetsConfigured()
    ensures Configured(PdfJs) && Configured(PngJs)
  {
  }

  /**
   * Every configured surface gets a well-formed grid that fills one axis of
   * its usable area; both PDF grids are centred, the PNG grid is pinned to
   * the top-left corner of its area.
   */
  lemma LayoutFits(t: Target)
    requires Configured(t)
    ensures WellFormed(TargetGeometry(t), UsableArea(t))
    ensures Binding(TargetGeometry(t), UsableArea(t))
    ensures !t.PngJs? ==> CentredIn(TargetGeometry(t), UsableArea(t))
    ensures t.PngJs? ==> TargetGeometry(t).startX == UsableArea(t).left && TargetGeometry(t).startY == UsableArea(t).low
  {
    var a := UsableArea(t);
    match t
    case PdfJs => CentredLayoutFits(TopDown, a);
    case PngJs => PinnedLayoutFits(a);
    case PdfPy(_, _, _) => CentredLayoutFits(BottomUp, a);
  }

  /** A centred layout of a non-empty area is well-formed, binding and centred. */
  lemma CentredLayoutFits(axis: Axis, a: Area)
    requires a.width > 0.0 && a.height > 0.0
    ensures WellFormed(CentredLayout(axis, a), a)
    ensures Binding(CentredLayout(axis, a), a)
    ensures CentredIn(CentredLayout(axis, a), a)
    ensures CentredLayout(axis, a).axis == axis
  {
    var box := BoxSize(a.width, a.height);
    assert Span(WeeksPerYear) == 77.5 && Span(MaxYears) == 134.5;
  }

  /** A pinned layout of a non-empty area is well-formed, binding and starts at the area's corner. */
  lemma PinnedLayoutFits(a: Area)
    requires a.width > 0.0 && a.height > 0.0
    ensures WellFormed(PinnedLayout(a), a)
    ensures Binding(PinnedLayout(a), a)
    ensures PinnedLayout(a).startX == a.left && PinnedLayout(a).startY == a.low
    ensures PinnedLayout(a).axis == TopDown
  {
    var box := BoxSize(a.width, a.height);
    assert Span(WeeksPerYear) == 77.5 && Span(MaxYears) == 134.5;
  }

  /**
   * On the browser page the height is the binding axis: the grid is exactly
   * 247 mm tall and narrower than the 160 mm available.
   */
  lemma PdfJsHeightBinds()
    ensures UsableArea(PdfJs).width == 160.0 && UsableArea(PdfJs).height == 247.0
    ensures TargetGeometry(PdfJs).box == 247.0 / 134.5
    ensures TargetGeometry(PdfJs).spacing == TargetGeometry(PdfJs).box * 0.5
    ensures TargetGeometry(PdfJs).gridHeight == 247.0
    ensures TargetGeometry(PdfJs).gridWidth < 160.0
  {
    assert Span(WeeksPerYear) == 77.5 && Span(MaxYears) == 134.5;
  }

  // ---- cells ----

  /** Moving k < n columns along puts at least one pitch between the two cell origins. */
  lemma ColumnGap(g: Geometry, k: int, n: int)
    requires k < n && Pitch(g) >= 0.0
    ensures CellX(g, k) + Pitch(g) <= CellX(g, n)
  {
    var d := (n - k) as real;
    assert CellX(g, n) - CellX(g, k) == d * Pitch(g);
    assert d * Pitch(g) >= Pitch(g);
  }

  /** The same for rows, in the direction the surface's y grows. */
  lemma RowGap(g: Geometry, k: int, n: int)
    requires k < n && Pitch(g) >= 0.0
    ensures g.axis == TopDown ==> CellY(g, k) + Pitch(g) <= CellY(g, n)
    ensures g.axis == BottomUp ==> CellY(g, n) + Pitch(g) <= CellY(g, k)
  {
    var d := (n - k) as real;
    assert d * Pitch(g) >= Pitch(g);
    if g.axis == TopDown {
      assert CellY(g, n) - CellY(g, k) == d * Pitch(g);
    } else {
      assert CellY(g, k) - CellY(g, n) == d * Pitch(g);
    }
  }

  /** Where the first and the last column and row sit in a well-formed grid. */
  lemma GridCorners(g: Geometry, a: Area)
    requires WellFormed(g, a)
    ensures CellX(g, 0) == g.startX
    ensures CellX(g, WeeksPerYear - 1) + g.box == g.startX + g.gridWidth
    ensures g.axis == TopDown ==> CellY(g, 0) == GridLow(g) && CellY(g, MaxYears - 1) + g.box == GridLow(g) + g.gridHeight
    ensures g.axis == BottomUp ==> CellY(g, MaxYears - 1) == GridLow(g) && CellY(g, 0) + g.box == GridLow(g) + g.gridHeight
  {
  }

  /** Every cell of a well-formed grid lies inside the area. */
  lemma CellInside(g: Geometry, a: Area, year: int, week: int)
    requires WellFormed(g, a)
    requires 0 <= year < MaxYears && 0 <= week < WeeksPerYear
    ensures a.left <= CellX(g, week) && CellX(g, week) + g.box <= a.left + a.width
    ensures a.low <= CellY(g, year) && CellY(g, year) + g.box <= a.low + a.height
  {
    GridCorners(g, a);
    if 0 < week {
      ColumnGap(g, 0, week);
    }
    if week < WeeksPerYear - 1 {
      ColumnGap(g, week, WeeksPerYear - 1);
    }
    if 0 < year {
      RowGap(g, 0, year);
    }
    if year < MaxYears - 1 {
      RowGap(g, year, MaxYears - 1);
    }
  }

  /** Two different cells of a well-formed grid are separated by a gap along at least one axis. */
  lemma CellsApart(g: Geometry, a: Area, year: int, week: int, year': int, week': int)
    requires WellFormed(g, a)
    requires year != year' || week != week'
    ensures || CellX(g, week) + g.box < CellX(g, week')
            || CellX(g, week') + g.box < CellX(g, week)
            || CellY(g, year) + g.box < CellY(g, year')
            || CellY(g, year') + g.box < CellY(g, year)
  {
    if week < week' {
      ColumnGap(g, week, week');
    } else if week' < week {
      ColumnGap(g, week', week);
    } else if year < year' {
      RowGap(g, year, year');
    } else {
      RowGap(g, year', year);
    }
  }
}
