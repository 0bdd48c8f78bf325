/**
 * Checking the birthdate before anything is drawn. The browser accepts any
 * non-empty date that is not after the moment of the click; the command line
 * also refuses years before 1900, and either asks again (interactive prompt)
 * or exits with status 1 (`--birthdate` argument). Parsing is a parameter:
 * `None` stands for a string `strptime` or `new Date` could not read.
 */
module Validation {
  import opened Wrappers
  import opened Dates
  import opened Weeks

  const DefaultTitle: string := "A 90-Year Human Life in Weeks"
  const EarliestYear: int := 1900

  // ---- browser ----

  datatype Format = Pdf | Png

  datatype Request =
    | Rejected(message: string)
    | Generate(format: Format, birthdate: string, title: string)

  /**
   * `handleGenerate`: the raw field values, the parsed birth instant
   * (`None` for an Invalid Date, which compares false with everything and so
   * is let through) and the clock.
   */
  function HandleGenerate(format: Format, birthdateField: string, titleField: string, birthMs: Option<int>, nowMs: int): (r: Request)
    ensures r.Rejected? <==> birthdateField == [] || (birthMs.Some? && birthMs.value > nowMs)
    ensures r.Rejected? && birthdateField == [] ==> r.message == "Please enter your birthdate"
    ensures r.Rejected? && birthdateField != [] ==> r.message == "Birthdate cannot be in the future"
    ensures r.Generate? ==> r.format == format && r.birthdate == birthdateField
    ensures r.Generate? ==> r.title != [] && (titleField != [] ==> r.title == titleField) && (titleField == [] ==> r.title == DefaultTitle)
  {
    var title := if titleField != [] then titleField else DefaultTitle;
    if birthdateField == [] then Rejected("Please enter your birthdate")
    else if birthMs.Some? && birthMs.value > nowMs then Rejected("Birthdate cannot be in the future")
    else Generate(format, birthdateField, title)
  }

  /**
   * A birthdate the browser let through counts a non-negative number of
   * weeks at the moment of the click and at any later clock reading (the
   * generator reads the clock again).
   */
  lemma AcceptedBirthdateCountsForward(format: Format, birthdateField: string, titleField: string, birthMs: int, nowMs: int, laterMs: int)
    requires HandleGenerate(format, birthdateField, titleField, Some(birthMs), nowMs).Generate?
    requires nowMs <= laterMs
    ensures CalculateWeeksLivedJs(birthMs, laterMs) >= 0
  {
  }

  // ---- command line ----

  datatype DateError = InvalidFormat | FutureDate | Before1900

  /** The checks shared by `get_birthdate` and `main`, in their order: format, future, then 1900. */
  function CheckBirthdate(parsed: Option<Date>, today: Date): (r: Result<Date, DateError>)
    ensures r.Ok? <==> parsed.Some? && !After(parsed.value, today) && parsed.value.year >= EarliestYear
    ensures r.Ok? ==> r.value == parsed.value
    ensures parsed.None? ==> r == Err(InvalidFormat)
    ensures parsed.Some? && After(parsed.value, today) ==> r == Err(FutureDate)
    ensures r == Err(Before1900) <==> parsed.Some? && !After(parsed.value, today) && parsed.value.year < EarliestYear
  {
    match parsed
    case None => Err(InvalidFormat)
    case Some(birthdate) =>
      if After(birthdate, today) then Err(FutureDate)
      else if birthdate.year < EarliestYear then Err(Before1900)
      else Ok(birthdate)
  }

  /** A birthdate the command line accepted counts a non-negative number of weeks. */
  lemma AcceptedBirthdateWeeks(parsed: Option<Date>, today: Date)
    requires parsed.Some? ==> ValidDate(parsed.value)
    requires ValidDate(today)
    requires CheckBirthdate(parsed, today).Ok?
    ensures CalculateWeeksLivedPy(CheckBirthdate(parsed, today).value, today) >= 0
  {
    WeeksLivedPyNonNegative(parsed.value, today);
  }

  const InvalidFormatText: string := "Error: Invalid date format. Please use YYYY-MM-DD (e.g., 1990-05-15)"
  const Before1900Text: string := "Error: Please enter a birthdate after 1900."
  const CancelledText: string := "\nOperation cancelled."

  /** What the interactive prompt prints for a refused line. */
  function PromptMessage(e: DateError): string {
    match e
    case InvalidFormat => InvalidFormatText
    case FutureDate => "Error: Birthdate cannot be in the future. Please try again."
    case Before1900 => Before1900Text
  }

  /** What `main` prints before exiting for a refused `--birthdate`. */
  function ArgumentMessage(e: DateError): string {
    match e
    case InvalidFormat => InvalidFormatText
    case FutureDate => "Error: Birthdate cannot be in the future."
    case Before1900 => Before1900Text
  }

  /** One answer to the prompt: a line (already parsed) or Ctrl-C. */
  datatype PromptInput = Line(parsed: Option<Date>) | Interrupt

  /**
   * How `get_birthdate` ends: with a birthdate, with "Operation cancelled."
   * and exit status 0, or because there is no more input (the `EOFError`
   * of `input()` is not caught).
   */
  datatype PromptOutcome = Accepted(birthdate: Date) | Cancelled | InputExhausted

  /** An answer the prompt refuses and asks again after. */
  predicate Refused(input: PromptInput, today: Date) {
    input.Line? && CheckBirthdate(input.parsed, today).Err?
  }

  /** What the prompt prints in answer to an input that does not end the loop with a birthdate. */
  function Response(input: PromptInput, today: Date): string {
    match input
    case Interrupt => CancelledText
    case Line(parsed) =>
      match CheckBirthdate(parsed, today)
      case Ok(_) => ""
      case Err(e) => PromptMessage(e)
  }

  /** Where `get_birthdate` ends on `inputs`: at the first input that is not a refused line. */
  function PromptOutcomeOf(inputs: seq<PromptInput>, today: Date): PromptOutcome
    decreases |inputs|
  {
    if inputs == [] then InputExhausted
    else
      match inputs[0]
      case Interrupt => Cancelled
      case Line(parsed) =>
        match CheckBirthdate(parsed, today)
        case Ok(birthdate) => Accepted(birthdate)
        case Err(_) => PromptOutcomeOf(inputs[1..], today)
  }

  /** Refused lines do not decide anything: the outcome is that of the inputs after them. */
  lemma {:induction false} PromptOutcomeAfterRefusals(inputs: seq<PromptInput>, k: nat, today: Date)
    requires k <= |inputs|
    requires forall j :: 0 <= j < k ==> Refused(inputs[j], today)
    ensures PromptOutcomeOf(inputs, today) == PromptOutcomeOf(inputs[k..], today)
    decreases k
  {
    if k > 0 {
      PromptOutcomeAfterRefusals(inputs[1..], k - 1, today);
      assert inputs[1..][k - 1..] == inputs[k..];
    }
  }

  /** The first input that is not a refused line decides the outcome: Ctrl-C cancels, a line is accepted. */
  lemma PromptOutcomeStops(inputs: seq<PromptInput>, i: nat, today: Date)
    requires i < |inputs| && !Refused(inputs[i], today)
    requires forall j :: 0 <= j < i ==> Refused(inputs[j], today)
    ensures PromptOutcomeOf(inputs, today) ==
              if inputs[i].Interrupt? then Cancelled else Accepted(CheckBirthdate(inputs[i].parsed, today).value)
  {
    PromptOutcomeAfterRefusals(inputs, i, today);
    assert inputs[i..][0] == inputs[i];
  }

  /**
   * `get_birthdate`: asks until a line passes the checks. `used` is the
   * number of inputs read and `messages` what was printed in answer; every
   * input before the last one read was a refused line.
   */
  method GetBirthdate(inputs: seq<PromptInput>, today: Date) returns (outcome: PromptOutcome, used: nat, messages: seq<string>)
    ensures outcome == PromptOutcomeOf(inputs, today)
    ensures used <= |inputs|
    ensures forall j :: 0 <= j < |messages| ==> j < used && messages[j] == Response(inputs[j], today)
    ensures outcome.Accepted? ==>
              && 1 <= used
              && inputs[used - 1] == Line(Some(outcome.birthdate))
              && CheckBirthdate(Some(outcome.birthdate), today) == Ok(outcome.birthdate)
              && |messages| == used - 1
              && forall j :: 0 <= j < used - 1 ==> Refused(inputs[j], today)
    ensures outcome.Cancelled? ==>
              && 1 <= used
              && inputs[used - 1] == Interrupt
              && |messages| == used
              && forall j :: 0 <= j < used - 1 ==> Refused(inputs[j], today)
    ensures outcome.InputExhausted? ==>
              && used == |inputs|
              && |messages| == used
              && forall j :: 0 <= j < used ==> Refused(inputs[j], today)
  {
    var i := 0;
    messages := [];
    // each refused line prints its error and asks again
    while i < |inputs| && Refused(inputs[i], today)
      invariant 0 <= i <= |inputs| && |messages| == i
      invariant forall j :: 0 <= j < i ==> Refused(inputs[j], today) && messages[j] == Response(inputs[j], today)
    {
      messages := messages + [Response(inputs[i], today)];
      i := i + 1;
    }
    if i == |inputs| {
      PromptOutcomeAfterRefusals(inputs, i, today);
      assert inputs[i..] == [];
      return InputExhausted, i, messages;
    }
    PromptOutcomeStops(inputs, i, today);
    match inputs[i]
    case Interrupt =>
      return Cancelled, i + 1, messages + [CancelledText];
    case Line(parsed) =>
      return Accepted(CheckBirthdate(parsed, today).value), i + 1, messages;
  }

  /** How `main` resolves the birthdate: go on with it, or exit with a status and a message. */
  datatype Resolution = Proceed(birthdate: Date) | Exit(code: int, message: string)

  /** The `--birthdate` branch of `main`: the same checks, but the first refusal exits with status 1. */
  function ArgumentBirthdate(parsed: Option<Date>, today: Date): (r: Resolution)
    ensures r.Proceed? <==> CheckBirthdate(parsed, today).Ok?
    ensures r.Proceed? ==> parsed == Some(r.birthdate)
    ensures r.Exit? ==> r.code == 1 && r.message == ArgumentMessage(CheckBirthdate(parsed, today).error)
  {
    match CheckBirthdate(parsed, today)
    case Ok(birthdate) => Proceed(birthdate)
    case Err(e) => Exit(1, ArgumentMessage(e))
  }
}
