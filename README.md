# Life calendar in weeks — a Dafny model

The program draws a "life calendar": a grid of 90 rows (years of age) by 52
columns (weeks). Boxes for weeks already lived are filled, and the rest are
left empty. It does this on three surfaces:

- an A4 PDF drawn in the browser with jsPDF (`app.js`);
- a 2480 × 3508 PNG canvas, also in the browser (`app.js`);
- an A4 PDF drawn by the command-line tool with reportlab (`life_calendar.py`).

This project models the logic behind those drawings and proves its
properties:

- **Week counting** (`weeks.dfy`, `dates.dfy`):
  - the browser's floor of a millisecond difference, first to days and then to weeks;
  - the command line's `(today - birthdate).days // 7`, with Python's `date` arithmetic modelled through the proleptic Gregorian ordinal.
- **Layout** (`layout.dfy`): box size, spacing, grid extent and origin, on exact `real`s. The grid is centred for both PDFs and pinned to the margins for the PNG.
- **The grid loop** (`grid.dfy`): the nested year/week loop, proved against a specification of the boxes it draws.
- **The label loops** (`labels.dfy`): the age labels, the "90" label and the week labels.
- **Input acceptance** (`validation.dfy`): the browser's `handleGenerate` checks; the command line's checks in the prompt retry loop and in the `--birthdate` path.
- **The entry points** (`calendar.dfy`): the two browser generators, `create_life_calendar_pdf`, `main`, and the output file names.

Drawing libraries are replaced by `Drawing.Surface`, an object whose
`DrawRect`/`DrawText` methods append primitives to a log. The clock and date
parsing are parameters:

- the browser takes the birth instant and the current instant as milliseconds;
- the command line takes `today` as a `Date`;
- a string that could not be parsed arrives as `None`.

Behaviour of the code that is easy to miss:

- No surface checks for a degenerate (≤ 0) box size. The model only shows that a *configured* surface (positive usable area, positive unit) gets a positive box.
- The PNG grid is not centred: its origin is the top-left margin.
- The PNG week labels read 0, 5, …, 50 over columns 0, 5, …, 50. Both PDFs read 1, 5, …, 50 over columns 0, 4, 9, …, 49, so "5" sits over column index 4.
- The browser does not refuse birthdates before 1900. Only the command line does.

## Model

| member | source | states |
|---|---|---|
| Digits.NatToString | app.js:154 | `toString()`/`str()` of a label number is one or more decimal digits, without a leading zero unless the number is 0 |
| Digits.PadDigits | life_calendar.py:246 | a `%Y`, `%m` or `%d` field is exactly as many digits as its width |
| Digits.NatToStringRoundTrip | app.js:154 | the decimal text of an age or week number reads back as that number |
| Digits.NatToStringInjective | app.js:154 | different numbers get different label texts |
| Digits.PadDigitsRoundTrip | life_calendar.py:246 | a zero-padded field of a number that fits reads back as that number |
| Dates.Ordinal | life_calendar.py:46 | `date.toordinal()`, 0001-01-01 being day 1; it has no contract of its own, and `Dates.OrdinalOrder` ties it to the calendar order |
| Dates.After | life_calendar.py:25 | `a > b` on dates compares (year, month, day) in order; it has no contract of its own, and `Dates.OrdinalOrder` ties it to the ordinal |
| Dates.DaysBetween | life_calendar.py:46 | `(today - birthdate).days` is positive exactly when today is after the birthdate and zero exactly when both are the same date |
| Dates.YearsIncrease | life_calendar.py:46 | day counts before a year grow by at least 365 per year |
| Dates.AfterMeansLater | life_calendar.py:25 | a date lexicographically after another has a larger ordinal |
| Dates.OrdinalOrder | life_calendar.py:25 | `birthdate > today` holds exactly when the ordinal is larger, and dates are equal exactly when their ordinals are |
| Dates.FormatIsoDate | life_calendar.py:246 | `strftime('%Y-%m-%d')` is ten characters with dashes at positions 4 and 7 |
| Dates.ParseIsoDate | life_calendar.py:22 | a parsed YYYY-MM-DD string is always a valid calendar date |
| Dates.IsoDateRoundTrip | life_calendar.py:22 | reading back a formatted valid date gives the same date |
| Weeks.FloorDiv | app.js:71-72 | the quotient q satisfies b·q ≤ a < b·q + b (floor, also for negative a) |
| Weeks.FloorDivUnique | app.js:71-72 | only one integer satisfies that bracket |
| Weeks.WholeDays | app.js:70-71 | whole days d with 86400000·d ≤ ms difference < 86400000·(d+1); non-negative when birth is not after now |
| Weeks.CalculateWeeksLivedJs | app.js:67-73 | 7w ≤ days < 7w+7; w ≥ 0 when birth is not after now; w = 0 at the birth instant |
| Weeks.WeeksLivedJsIsWholeWeeks | app.js:70-72 | flooring to days and then to weeks equals one floor by 604800000 ms |
| Weeks.CalculateWeeksLivedPy | life_calendar.py:43-48 | 7w ≤ days between the dates < 7w+7; equal dates give 0 |
| Weeks.WeeksLivedPyNonNegative | life_calendar.py:43-48 | a birthdate not after today gives w ≥ 0 |
| Weeks.WholeWeeksCounted | life_calendar.py:46-47 | a day count of 7k + r with 0 ≤ r < 7 gives exactly k |
| Weeks.TwentyFourYearsExample | life_calendar.py:43-48 | born 2000-01-01 and counted on 2024-01-01 gives 8766 days and 1252 weeks |
| Layout.BoxSize | app.js:107-111 | the box is the largest for which 52 columns and 90 rows with half-box gaps fit, one axis exactly; positive iff both usable sides are |
| Layout.BoxSizeIsLargest | app.js:111 | any box size whose grid fits is at most the chosen one |
| Layout.CentredLayout | app.js:104-118 | the PDF layout keeps the page's y direction and leaves equal slack on both sides of each axis of the usable area |
| Layout.PinnedLayout | app.js:256-263 | the PNG layout has y growing down, its origin at the area's top-left corner, and a width `52*(box+spacing) - spacing` equal to the PDFs' `52*box + 51*spacing` |
| Layout.UsableArea | app.js:96-105 | the page less its margins and label gutters; it has no contract of its own, and `Layout.PdfJsHeightBinds`, `Layout.BrowserTargetsConfigured` and `Calendar.A4Configured` state its sizes |
| Layout.TargetGeometry | life_calendar.py:63-90 | the centred layout for both PDFs (y up for reportlab) and the pinned one for the PNG; it has no contract of its own, and `Layout.LayoutFits` states what each surface gets |
| Layout.BrowserTargetsConfigured | app.js:96-105 | the browser page's and the canvas's constants leave a positive usable area |
| Layout.LayoutFits | app.js:97-118 | every configured surface gets a well-formed grid inside its usable area that fills one axis; both PDF grids are centred, the PNG grid starts at its margins |
| Layout.CentredLayoutFits | life_calendar.py:67-90 | the centred layout (y down or y up) is well-formed and binding, and it leaves equal slack on both sides of each axis |
| Layout.PinnedLayoutFits | app.js:255-263 | the PNG layout with `52*(box+spacing) - spacing` width is well-formed and binding, with its origin at the top-left margins |
| Layout.PdfJsHeightBinds | app.js:97-116 | the browser page's usable area is 160 × 247, the box is 247/134.5 with half-box spacing, and the grid is 247 tall and under 160 wide |
| Layout.ColumnGap | app.js:132 | later columns start at least one pitch further right |
| Layout.RowGap | life_calendar.py:106 | later rows start at least one pitch further down the page, whether y grows downward or upward |
| Layout.GridCorners | app.js:115-118 | the first and last cells touch the grid's edges |
| Layout.CellInside | life_calendar.py:105-106 | every cell lies inside the usable area |
| Layout.CellsApart | app.js:132-133 | two different cells are separated by a gap on at least one axis |
| Drawing.Surface.constructor | app.js:85-89 | a new document has nothing drawn on it |
| Drawing.Surface.DrawRect | app.js:138-141 | drawing a box appends exactly that box to the log |
| Drawing.Surface.DrawText | app.js:154 | drawing a text appends exactly that text to the log |
| Drawing.CountFilledAppend | app.js:135-141 | filled boxes of two logs add up |
| Drawing.PrefixFilledCount | app.js:135 | a log whose first n boxes are filled has min(max(n, 0), length) filled boxes |
| Drawing.TextsFillNothing | app.js:154 | labels add no filled box |
| Grid.GridOps | app.js:129-144 | the grid pass draws exactly 4680 boxes and no text |
| Grid.WeekIndexSplits | app.js:131 | each cell's box number is in 0..4679, and row and column are recovered from it |
| Grid.WeekIndexCovers | life_calendar.py:109 | every box number in 0..4679 belongs to a cell of the grid |
| Grid.GridOpAt | app.js:129-135 | box i of the grid is cell (i div 52, i mod 52) and is filled exactly when i < weeksLived |
| Grid.FilledBoxesArePrefix | life_calendar.py:112 | the filled boxes form a row-major prefix of the drawing order |
| Grid.GridFilledCount | app.js:129-144 | the grid has min(max(weeksLived, 0), 4680) filled boxes |
| Grid.CellDrawnOnce | life_calendar.py:103-117 | each cell is drawn exactly once, as box number age·52 + week, with the full box size, inside the usable area |
| Grid.BoxesDisjoint | app.js:132-133 | no two boxes of a well-formed grid overlap |
| Grid.DrawRow | app.js:130-143 | the week loop appends the 52 boxes of its row in order |
| Grid.DrawGrid | app.js:129-144 | the year/week loop appends exactly the 4680 grid boxes, row by row |
| Labels.AgeLabel | app.js:151-155 | an age label shows the age as decimal text and is right-aligned |
| Labels.Age90Label | app.js:157-160 | the extra label shows "90" and is left-aligned |
| Labels.WeekLabel | app.js:163-168 | a week label shows the display week (1 for loop value 0 on the PDFs) and is centred |
| Labels.AgeLabelsAt | life_calendar.py:122 | the i-th age label drawn is the one for age 5i |
| Labels.WeekLabelsAt | life_calendar.py:133 | the i-th week label drawn is the one for loop value 5i |
| Labels.LabelOps | app.js:146-168 | the label pass draws 30 texts and nothing else |
| Labels.DrawAgeLabels | app.js:151-155 | `age = 0; age < 90; age += 5` draws exactly the 18 age labels, in order |
| Labels.DrawAge90Label | app.js:157-160 | draws the single "90" label |
| Labels.DrawWeekLabels | app.js:163-168 | `week <= 52` (PDF) or `week < 52` (PNG, app.js:316) in steps of 5 draws exactly 11 week labels, in order |
| Labels.DrawLabels | life_calendar.py:119-138 | the three label loops draw ages, then "90", then weeks |
| Labels.TargetLabelFrame | app.js:275-276 | each surface's layout has the shape the label formulas assume: y direction, PNG origin at the margins |
| Labels.AgeLabelPosition | app.js:301-303 | an age label sits at its row's centre plus the surface's baseline shift, left of the grid |
| Labels.AgeLabelsPlacement | life_calendar.py:122-125 | the age labels read 0..85 in steps of 5 (never 90), each at row 5i's centre, right-aligned left of the grid |
| Labels.Age90Placement | life_calendar.py:127-130 | "90" is drawn right of the grid, at the centre of row 90, which lies past the last row |
| Labels.WeekLabelPosition | app.js:316-318 | a week label is centred over its column and lies above the grid |
| Labels.WeekLabelsPlacement | app.js:163-167 | PDF week labels read 1, 5, …, 50 over columns 0, 4, …, 49; PNG labels read 0, 5, …, 50 over the same-numbered columns; all are above the grid |
| Validation.HandleGenerate | app.js:20-41 | generation is requested iff the field is non-empty and the date is not after now; the two error messages; the default title |
| Validation.AcceptedBirthdateCountsForward | app.js:35-41 | an accepted birthdate counts w ≥ 0 at the click and at any later clock reading |
| Validation.CheckBirthdate | life_calendar.py:22-32 | a date is accepted iff it parses, is not after today and has year ≥ 1900; an unparseable string is a format error and the future check comes first |
| Validation.AcceptedBirthdateWeeks | life_calendar.py:34 | an accepted birthdate counts w ≥ 0 |
| Validation.PromptOutcomeAfterRefusals | life_calendar.py:19-37 | lines refused for their format, a future date or a year before 1900 decide nothing: the outcome is that of the inputs after them |
| Validation.PromptOutcomeStops | life_calendar.py:19-40 | after refused lines, Ctrl-C ends the prompt cancelled and a line that passes the checks ends it with that date |
| Validation.GetBirthdate | life_calendar.py:17-40 | the prompt's outcome is `PromptOutcomeOf` its inputs: the first accepted line, all earlier lines having been refused with their messages; Ctrl-C cancels after printing its notice; no more input ends the loop |
| Validation.ArgumentBirthdate | life_calendar.py:220-236 | a non-empty `--birthdate` proceeds exactly when the shared checks pass, and otherwise exits with status 1 and the branch's own message |
| Calendar.CalendarContents | app.js:129-168 | a calendar is 4680 boxes then 30 texts, with min(max(weeksLived, 0), 4680) filled boxes |
| Calendar.RenderCalendar | app.js:129-168 | draws grid, then labels, on the surface |
| Calendar.GridThreshold | app.js:67-73 | the count the grid compares box numbers against is 0 for an Invalid Date and non-negative exactly when the birth is not after now |
| Calendar.JsFileName | app.js:219 | the name is `life_calendar_`, the field value as typed, then `.pdf` |
| Calendar.GenerateLifeCalendarPdf | app.js:78-220 | a fresh document holds the browser PDF's calendar, and the file is named after the birthdate field |
| Calendar.GenerateLifeCalendarPng | app.js:226-319 | a fresh canvas holds the PNG's calendar |
| Calendar.A4Configured | life_calendar.py:55-68 | reportlab's A4 page in points leaves a positive usable area |
| Calendar.CreateLifeCalendarPdf | life_calendar.py:51-138 | a fresh canvas holds the calendar laid out for the given page |
| Calendar.PyFileName | life_calendar.py:246 | the name is 28 characters: `life_calendar_`, the date, `.pdf` |
| Calendar.PyFileNameNamesBirthdate | life_calendar.py:246 | the birthdate reads back from characters 14..23 of the name |
| Calendar.FileNamesAgree | app.js:219 | for a YYYY-MM-DD field the browser and the command line pick the same name |
| Calendar.PercentageLived | life_calendar.py:243 | non-negative for w ≥ 0, and at most 100 exactly when w ≤ 4680 |
| Calendar.SaveCalendar | life_calendar.py:240-250 | once accepted: the week count (≥ 0), the percentage, the file name and the A4 calendar drawn |
| Calendar.RunCli | life_calendar.py:193-250 | a non-empty `--birthdate` draws exactly the date `ArgumentBirthdate` accepts or exits with its status 1; an absent or empty one goes to the prompt, drawing the date it accepts, exiting 0 on Ctrl-C and 1 when input runs out; a drawn date comes with its week count, percentage, file name and A4 calendar |

## Left out

- Page and browser glue: event listeners, message boxes, the loading toggle and the `setTimeout` yield. These are user-interface plumbing with no logic.
- Rendering libraries: fonts, colours, line widths, stroke versus fill styles, text baselines, rotation, `doc.save`, the canvas's PNG encoding and download, and `c.save()`. A drawn box is recorded only with its position, size and whether it is filled. A drawn text is recorded with its content, anchor and alignment.
- The title, the "Age" and "Week of Year" captions, the two arrows and the footer. These are fixed offsets from the grid with no behaviour beyond literal arithmetic.
- The clock, time zones and daylight saving: the current instant and `date.today()` are parameters.
- Date parsing: `new Date(...)` and `strptime` are parameters; `None` stands for an unparseable string. `Dates.ParseIsoDate` covers only the canonical YYYY-MM-DD form, which is what the file-name round trip needs. `strptime` also accepts unpadded months and days.
- IEEE floating point: all geometry is on exact reals. In particular, the PNG's inlined divisors 77.5 and 134.5 are written as `Span(52)` and `Span(90)`, which equal them exactly.
- Console input and output of the command line: argument parsing, the banner, the success lines and the percentage's format. The printed error messages are modelled; exits are returned as a status.
- Layout.LayoutFits: assumes a configured surface (positive usable sides and, for reportlab, a positive `mm`). The code has no such check, and the model does not describe what a degenerate page would draw beyond what `Layout.BoxSize` states.
- Weeks.CalculateWeeksLivedJs: an Invalid Date (NaN) is not a week count. `Calendar.GridThreshold` instead maps it to 0, which fills the same boxes, because `weekNumber < NaN` is false.
- Dates.FormatIsoDate: `strftime('%Y')` does not pad years below 1000 on every platform. The command line only formats accepted years (≥ 1900), where both agree.
