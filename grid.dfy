/**
 * The grid of weeks: 90 rows (years of age) of 52 boxes (weeks), drawn row
 * by row; box number `year * 52 + week` is filled when that many weeks have
 * been lived. The same nested loop serves all three surfaces; only the
 * geometry differs.
 */
module Grid {
  import opened Layout
  import opened Drawing

  /** `weekNumber` / `box_number` of a cell. */
  function WeekIndex(year: int, week: int): int {
    year * WeeksPerYear + week
  }

  /** The box drawn for cell (year, week). */
  function CellOp(g: Geometry, weeksLived: int, year: int, week: int): Op {
    Rect(CellX(g, week), CellY(g, year), g.box, WeekIndex(year, week) < weeksLived)
  }

  /** The first n boxes of row `year`, in drawing order. */
  function RowOps(g: Geometry, weeksLived: int, year: int, n: nat): (ops: seq<Op>)
    ensures |ops| == n
    ensures forall i :: 0 <= i < |ops| ==> ops[i].Rect?
    decreases n
  {
    if n == 0 then [] else RowOps(g, weeksLived, year, n - 1) + [CellOp(g, weeksLived, year, n - 1)]
  }

  /** The first n complete rows, in drawing order. */
  function RowsOps(g: Geometry, weeksLived: int, n: nat): (ops: seq<Op>)
    ensures |ops| == n * WeeksPerYear
    ensures forall i :: 0 <= i < |ops| ==> ops[i].Rect?
    decreases n
  {
    if n == 0 then [] else RowsOps(g, weeksLived, n - 1) + RowOps(g, weeksLived, n - 1, WeeksPerYear)
  }

  /** Everything the grid loop draws. */
  function GridOps(g: Geometry, weeksLived: int): (ops: seq<Op>)
    ensures |ops| == TotalWeeks
    ensures forall i :: 0 <= i < |ops| ==> ops[i].Rect?
  {
    RowsOps(g, weeksLived, MaxYears)
  }

  // ---- the box numbering ----

  /** Every cell of the grid gets a box number in 0 .. 4679, from which its row and column are recovered. */
  lemma WeekIndexSplits(year: int, week: int)
    requires 0 <= year < MaxYears && 0 <= week < WeeksPerYear
    ensures 0 <= WeekIndex(year, week) < TotalWeeks
    ensures WeekIndex(year, week) / WeeksPerYear == year && WeekIndex(year, week) % WeeksPerYear == week
  {
  }

  /** Every box number in 0 .. 4679 belongs to exactly one cell of the grid. */
  lemma WeekIndexCovers(i: int)
    requires 0 <= i < TotalWeeks
    ensures 0 <= i / WeeksPerYear < MaxYears && 0 <= i % WeeksPerYear < WeeksPerYear
    ensures WeekIndex(i / WeeksPerYear, i % WeeksPerYear) == i
  {
  }

  // ---- what the loop draws ----

  lemma {:induction false} RowOpsAt(g: Geometry, weeksLived: int, year: int, n: nat, week: int)
    requires 0 <= week < n
    ensures |RowOps(g, weeksLived, year, n)| == n
    ensures RowOps(g, weeksLived, year, n)[week] == CellOp(g, weeksLived, year, week)
    decreases n
  {
    if week < n - 1 {
      RowOpsAt(g, weeksLived, year, n - 1, week);
    } else if n > 1 {
      RowOpsAt(g, weeksLived, year, n - 1, 0);
    }
  }

  lemma {:induction false} RowsOpsAt(g: Geometry, weeksLived: int, n: nat, year: int, week: int)
    requires 0 <= year < n && 0 <= week < WeeksPerYear
    ensures |RowsOps(g, weeksLived, n)| == n * WeeksPerYear
    ensures RowsOps(g, weeksLived, n)[WeekIndex(year, week)] == CellOp(g, weeksLived, year, week)
    decreases n
  {
    RowOpsAt(g, weeksLived, n - 1, WeeksPerYear, week);
    if year < n - 1 {
      RowsOpsAt(g, weeksLived, n - 1, year, week);
    } else if n > 1 {
      RowsOpsAt(g, weeksLived, n - 1, 0, 0);
    }
  }

  /** The grid draws 4680 boxes, and box i is cell (i / 52, i % 52), filled exactly when i < weeksLived. */
  lemma GridOpAt(g: Geometry, weeksLived: int, i: int)
    requires 0 <= i < TotalWeeks
    ensures |GridOps(g, weeksLived)| == TotalWeeks
    ensures GridOps(g, weeksLived)[i] == CellOp(g, weeksLived, i / WeeksPerYear, i % WeeksPerYear)
    ensures GridOps(g, weeksLived)[i].filled <==> i < weeksLived
  {
    WeekIndexCovers(i);
    RowsOpsAt(g, weeksLived, MaxYears, i / WeeksPerYear, i % WeeksPerYear);
  }

  /** The filled boxes are a prefix of the drawing order: a filled box has only filled boxes before it. */
  lemma FilledBoxesArePrefix(g: Geometry, weeksLived: int, i: int, j: int)
    requires 0 <= i <= j < TotalWeeks
    requires GridOps(g, weeksLived)[j].filled
    ensures GridOps(g, weeksLived)[i].filled
  {
    GridOpAt(g, weeksLived, i);
    GridOpAt(g, weeksLived, j);
  }

  /** The number of filled boxes is weeksLived, clamped to 0 .. 4680. */
  lemma GridFilledCount(g: Geometry, weeksLived: int)
    ensures CountFilled(GridOps(g, weeksLived)) == Clamp(weeksLived, TotalWeeks)
  {
    var ops := GridOps(g, weeksLived);
    GridOpAt(g, weeksLived, 0);
    forall i | 0 <= i < |ops|
      ensures ops[i].Rect? && (ops[i].filled <==> i < weeksLived)
    {
      GridOpAt(g, weeksLived, i);
    }
    PrefixFilledCount(ops, weeksLived);
  }

  /**
   * In a well-formed layout every cell is drawn exactly once: the one box
   * with that cell's origin is box number year*52 + week, and it lies in the
   * usable area.
   */
  lemma CellDrawnOnce(g: Geometry, a: Area, weeksLived: int, year: int, week: int)
    requires WellFormed(g, a)
    requires 0 <= year < MaxYears && 0 <= week < WeeksPerYear
    ensures |GridOps(g, weeksLived)| == TotalWeeks
    ensures forall i | 0 <= i < TotalWeeks ::
              (GridOps(g, weeksLived)[i].x == CellX(g, week) && GridOps(g, weeksLived)[i].y == CellY(g, year))
              <==> i == WeekIndex(year, week)
    ensures GridOps(g, weeksLived)[WeekIndex(year, week)].size == g.box
    ensures a.left <= CellX(g, week) && CellX(g, week) + g.box <= a.left + a.width
    ensures a.low <= CellY(g, year) && CellY(g, year) + g.box <= a.low + a.height
  {
    var ops := GridOps(g, weeksLived);
    WeekIndexSplits(year, week);
    GridOpAt(g, weeksLived, WeekIndex(year, week));
    forall i | 0 <= i < TotalWeeks
      ensures (ops[i].x == CellX(g, week) && ops[i].y == CellY(g, year)) <==> i == WeekIndex(year, week)
    {
      GridOpAt(g, weeksLived, i);
      WeekIndexCovers(i);
      if i != WeekIndex(year, week) {
        CellsApart(g, a, i / WeeksPerYear, i % WeeksPerYear, year, week);
      }
    }
    CellInside(g, a, year, week);
  }

  /** Two different boxes of a well-formed grid do not overlap. */
  lemma BoxesDisjoint(g: Geometry, a: Area, weeksLived: int, i: int, j: int)
    requires WellFormed(g, a)
    requires 0 <= i < TotalWeeks && 0 <= j < TotalWeeks && i != j
    ensures var p, q := GridOps(g, weeksLived)[i], GridOps(g, weeksLived)[j];
            p.x + p.size < q.x || q.x + q.size < p.x || p.y + p.size < q.y || q.y + q.size < p.y
  {
    GridOpAt(g, weeksLived, i);
    GridOpAt(g, weeksLived, j);
    WeekIndexCovers(i);
    WeekIndexCovers(j);
    CellsApart(g, a, i / WeeksPerYear, i % WeeksPerYear, j / WeeksPerYear, j % WeeksPerYear);
  }

  /** The inner loop of every generator: the 52 boxes of row `year`, left to right. */
  method DrawRow(s: Surface, g: Geometry, weeksLived: int, year: int)
    modifies s
    ensures s.ops == old(s.ops) + RowOps(g, weeksLived, year, WeeksPerYear)
  {
    var week := 0;
    while week < WeeksPerYear
      invariant 0 <= week <= WeeksPerYear
      invariant s.ops == old(s.ops) + RowOps(g, weeksLived, year, week)
    {
      var weekNumber := year * WeeksPerYear + week;
      var x := CellX(g, week);
      var y := CellY(g, year);
      if weekNumber < weeksLived {
        s.DrawRect(x, y, g.box, true);
      } else {
        s.DrawRect(x, y, g.box, false);
      }
      week := week + 1;
    }
  }

  /** The outer loop of every generator: the 90 rows, top row (age 0) first. */
  method DrawGrid(s: Surface, g: Geometry, weeksLived: int)
    modifies s
    ensures s.ops == old(s.ops) + GridOps(g, weeksLived)
  {
    var year := 0;
    while year < MaxYears
      invariant 0 <= year <= MaxYears
      invariant s.ops == old(s.ops) + RowsOps(g, weeksLived, year)
    {
      ghost var done := RowsOps(g, weeksLived, year);
      DrawRow(s, g, weeksLived, year);
      AppendAssociative(old(s.ops), done, RowOps(g, weeksLived, year, WeeksPerYear));
      assert RowsOps(g, weeksLived, year + 1) == done + RowOps(g, weeksLived, year, WeeksPerYear);
      year := year + 1;
    }
  }
}
