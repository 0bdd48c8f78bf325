/**
 * The three generators put together: count the weeks, lay the grid out for
 * the surface, draw the boxes, then the age labels, the "90" and the week
 * labels, in that order; and the command line's `main`, which resolves the
 * birthdate, draws the calendar on an A4 page and names the file after the
 * birthdate.
 */
module Calendar {
  import opened Wrappers
  import opened Dates
  import opened Weeks
  import opened Layout
  import opened Drawing
  import opened Grid
  import opened Labels
  import opened Validation

  /** Everything a generator draws with geometry g, in drawing order. */
  function CalendarOn(t: Target, g: Geometry, weeksLived: int): seq<Op> {
    GridOps(g, weeksLived) + LabelOps(t, g)
  }

  /** Everything a generator draws on its surface. */
  function CalendarOps(t: Target, weeksLived: int): seq<Op> {
    CalendarOn(t, TargetGeometry(t), weeksLived)
  }

  /**
   * A calendar holds the 4680 boxes first, then 30 labels; exactly
   * min(max(weeksLived, 0), 4680) of its boxes are filled.
   */
  lemma CalendarContents(t: Target, weeksLived: int)
    ensures |CalendarOps(t, weeksLived)| == TotalWeeks + AgeLabelCount + 1 + WeekLabelCount
    ensures CalendarOps(t, weeksLived)[..TotalWeeks] == GridOps(TargetGeometry(t), weeksLived)
    ensures forall i :: TotalWeeks <= i < |CalendarOps(t, weeksLived)| ==> CalendarOps(t, weeksLived)[i].Text?
    ensures CountFilled(CalendarOps(t, weeksLived)) == Clamp(weeksLived, TotalWeeks)
  {
    var g := TargetGeometry(t);
    var grid := GridOps(g, weeksLived);
    var labels := LabelOps(t, g);
    TextsFillNothing(labels);
    CountFilledAppend(grid, labels);
    GridFilledCount(g, weeksLived);
  }

  /** Draws the calendar of surface `t`, laid out by `g`, on `s`. */
  method RenderCalendar(s: Surface, t: Target, g: Geometry, weeksLived: int)
    modifies s
    ensures s.ops == old(s.ops) + CalendarOn(t, g, weeksLived)
  {
    ghost var before := s.ops;
    ghost var boxes, labels := GridOps(g, weeksLived), LabelOps(t, g);
    DrawGrid(s, g, weeksLived);
    DrawLabels(s, t, g);
    assert s.ops == before + boxes + labels;
    assert CalendarOn(t, g, weeksLived) == boxes + labels;
    AppendAssociative(before, boxes, labels);
  }

  // ---- browser ----

  /**
   * The threshold the grid loop compares box numbers against. An Invalid
   * Date makes `calculateWeeksLived` NaN, and `weekNumber < NaN` is false
   * for every box, just as with a count of 0.
   */
  function GridThreshold(birthMs: Option<int>, nowMs: int): (threshold: int)
    ensures birthMs.None? ==> threshold == 0
    ensures threshold >= 0 <==> birthMs.None? || birthMs.value <= nowMs
  {
    match birthMs
    case Some(ms) => CalculateWeeksLivedJs(ms, nowMs)
    case None => 0
  }

  /** `life_calendar_${birthdate}.pdf`, with the field value as typed. */
  function JsFileName(birthdate: string): (name: string)
    ensures |name| == |birthdate| + 18
    ensures name[..14] == "life_calendar_" && name[14..|name| - 4] == birthdate && name[|name| - 4..] == ".pdf"
  {
    "life_calendar_" + birthdate + ".pdf"
  }

  /** `generateLifeCalendarPDF`, with the clock passed in; `doc.save` is left to the caller. */
  method GenerateLifeCalendarPdf(birthdate: string, birthMs: Option<int>, nowMs: int) returns (doc: Surface, filename: string)
    ensures fresh(doc)
    ensures doc.ops == CalendarOps(PdfJs, GridThreshold(birthMs, nowMs))
    ensures filename == JsFileName(birthdate)
  {
    var weeksLived := GridThreshold(birthMs, nowMs);
    doc := new Surface();
    RenderCalendar(doc, PdfJs, TargetGeometry(PdfJs), weeksLived);
    filename := JsFileName(birthdate);
  }

  /** `generateLifeCalendarPNG`, with the clock passed in; the PNG encoding and download are left to the caller. */
  method GenerateLifeCalendarPng(birthMs: Option<int>, nowMs: int) returns (canvas: Surface)
    ensures fresh(canvas)
    ensures canvas.ops == CalendarOps(PngJs, GridThreshold(birthMs, nowMs))
  {
    var weeksLived := GridThreshold(birthMs, nowMs);
    canvas := new Surface();
    RenderCalendar(canvas, PngJs, TargetGeometry(PngJs), weeksLived);
  }

  // ---- command line ----

  /** reportlab's `mm`, in points. */
  const Millimetre: real := 72.0 / 25.4
  /** reportlab's A4 page, 210 mm by 297 mm in points. */
  const A4: Target := PdfPy(210.0 * Millimetre, 297.0 * Millimetre, Millimetre)

  /** The A4 page leaves a positive area for the grid. */
  lemma A4Configured()
    ensures Configured(A4)
  {
  }

  /** `create_life_calendar_pdf`, on a page of the given size. */
  method CreateLifeCalendarPdf(pageWidth: real, pageHeight: real, mm: real, weeksLived: int) returns (c: Surface)
    ensures fresh(c)
    ensures c.ops == CalendarOps(PdfPy(pageWidth, pageHeight, mm), weeksLived)
  {
    c := new Surface();
    var page := PdfPy(pageWidth, pageHeight, mm);
    RenderCalendar(c, page, TargetGeometry(page), weeksLived);
  }

  /** `f"life_calendar_{birthdate.strftime('%Y-%m-%d')}.pdf"` */
  function PyFileName(birthdate: Date): (name: string)
    requires ValidDate(birthdate)
    ensures |name| == 28
    ensures name[..14] == "life_calendar_" && name[24..] == ".pdf"
  {
    "life_calendar_" + FormatIsoDate(birthdate) + ".pdf"
  }

  /** The birthdate can be read back from the file name, so different birthdates give different names. */
  lemma PyFileNameNamesBirthdate(birthdate: Date)
    requires ValidDate(birthdate)
    ensures ParseIsoDate(PyFileName(birthdate)[14..24]) == Some(birthdate)
  {
    assert PyFileName(birthdate)[14..24] == FormatIsoDate(birthdate);
    IsoDateRoundTrip(birthdate);
  }

  /** For a field holding the date in YYYY-MM-DD form both generators pick the same name. */
  lemma FileNamesAgree(birthdate: Date)
    requires ValidDate(birthdate)
    ensures JsFileName(FormatIsoDate(birthdate)) == PyFileName(birthdate)
  {
  }

  /** `(weeks_lived / total_weeks) * 100` */
  function PercentageLived(weeksLived: int): (percentage: real)
    ensures weeksLived >= 0 ==> percentage >= 0.0
    ensures percentage <= 100.0 <==> weeksLived <= TotalWeeks
  {
    weeksLived as real / TotalWeeks as real * 100.0
  }

  /** `if args.birthdate:` — an absent or empty `--birthdate` sends `main` to the prompt. */
  predicate ArgumentGiven(argument: Option<string>) {
    argument.Some? && argument.value != []
  }

  /**
   * `main`: `argument` is `args.birthdate` (`None` when the option is absent),
   * `parsedArgument` what `strptime` made of it, and `inputs` what the prompt
   * would read. On success the calendar of `birthdate` is drawn on an A4 page
   * and saved under `filename`.
   */
  method RunCli(argument: Option<string>, parsedArgument: Option<Date>, inputs: seq<PromptInput>, today: Date)
    returns (status: int, birthdate: Option<Date>, weeksLived: int, percentage: real, filename: string, calendar: seq<Op>)
    requires ValidDate(today)
    requires parsedArgument.Some? ==> ValidDate(parsedArgument.value)
    requires forall j :: 0 <= j < |inputs| && inputs[j].Line? && inputs[j].parsed.Some? ==> ValidDate(inputs[j].parsed.value)
    ensures ArgumentGiven(argument) ==>
              (match ArgumentBirthdate(parsedArgument, today)
               case Proceed(d) => birthdate == Some(d) && status == 0
               case Exit(code, _) => birthdate.None? && status == code)
    ensures !ArgumentGiven(argument) ==>
              (match PromptOutcomeOf(inputs, today)
               case Accepted(d) => birthdate == Some(d) && status == 0
               case Cancelled => birthdate.None? && status == 0
               case InputExhausted => birthdate.None? && status == 1)
    ensures birthdate.Some? ==>
              && ValidDate(birthdate.value)
              && CheckBirthdate(Some(birthdate.value), today) == Ok(birthdate.value)
              && weeksLived == CalculateWeeksLivedPy(birthdate.value, today)
              && weeksLived >= 0
              && percentage == PercentageLived(weeksLived)
              && filename == PyFileName(birthdate.value)
              && calendar == CalendarOps(A4, weeksLived)
  {
    status, birthdate, weeksLived, percentage, filename, calendar := 1, None, 0, 0.0, "", [];
    var resolved: Date;
    if ArgumentGiven(argument) {
      var r := ArgumentBirthdate(parsedArgument, today);
      if r.Exit? {
        status := r.code;
        return;
      }
      resolved := r.birthdate;
    } else {
      var outcome, used, messages := GetBirthdate(inputs, today);
      match outcome {
        case Cancelled =>
          status := 0;
          return;
        case InputExhausted =>
          return;
        case Accepted(d) =>
          resolved := d;
      }
    }
    birthdate := Some(resolved);
    status := 0;
    weeksLived, percentage, filename, calendar := SaveCalendar(resolved, today);
  }

  /** The rest of `main` once the birthdate is known: count, name the file, draw on A4. */
  method SaveCalendar(birthdate: Date, today: Date) returns (weeksLived: int, percentage: real, filename: string, calendar: seq<Op>)
    requires ValidDate(birthdate) && ValidDate(today)
    requires CheckBirthdate(Some(birthdate), today).Ok?
    ensures weeksLived == CalculateWeeksLivedPy(birthdate, today) && weeksLived >= 0
    ensures percentage == PercentageLived(weeksLived)
    ensures filename == PyFileName(birthdate)
    ensures calendar == CalendarOps(A4, weeksLived)
  {
    AcceptedBirthdateWeeks(Some(birthdate), today);
    weeksLived := CalculateWeeksLivedPy(birthdate, today);
    percentage := PercentageLived(weeksLived);
    filename := PyFileName(birthdate);
    var c := CreateLifeCalendarPdf(A4.pageWidth, A4.pageHeight, A4.mm, weeksLived);
    calendar := c.ops;
  }
}
