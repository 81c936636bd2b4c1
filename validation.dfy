/** The acceptance rules of the program's two input prompts: the start date and
    the USD/EUR/HUF split. Each function decides a single round of input; the
    surrounding re-prompt loops are console interaction and are not modelled.
    The calendar parse and the current date are library calls, so they arrive
    as parameters. */
module Validation {
  import opened Wrappers
  import opened Domain

  /** The two messages with which the date prompt is repeated. */
  datatype DateError =
    | NotIsoFormat  // the text is not a YYYY-MM-DD date
    | TooRecent     // a date, but less than 30 days before today

  /** The two messages with which the percentage prompts are repeated. */
  datatype SplitError =
    | NotANumber  // one of the three answers does not parse as a number
    | BadSplit    // three numbers, but not a split of the whole

  /** Largest accepted distance between the sum of the three percentages and 1. */
  const SumTolerance: real := 0.0000000001

  /** The cheap shape test made before any calendar parse: ten characters with
      a dash at positions 4 and 7. */
  predicate HasIsoShape(s: string)
  {
    |s| == 10 && s[4] == '-' && s[7] == '-'
  }

  /** A start date is accepted only if it lies at least a whole horizon in the past. */
  predicate OldEnough(start: Day, today: Day)
  {
    today - start >= HorizonDays
  }

  /** One answer to the date prompt. `parse` stands for the calendar parse of a
      YYYY-MM-DD text (None when it rejects the text); it is consulted only when
      the shape test passes. */
  function ValidateDate(input: string, parse: string -> Option<Day>, today: Day): (r: Result<Day, DateError>)
    ensures r.Ok? <==> HasIsoShape(input) && parse(input).Some? && OldEnough(parse(input).value, today)
    ensures r.Ok? ==> r.value == parse(input).value && EndDate(r.value) <= today
    ensures r == Err(NotIsoFormat) <==> !HasIsoShape(input) || parse(input).None?
    ensures r == Err(TooRecent) <==> HasIsoShape(input) && parse(input).Some? && !OldEnough(parse(input).value, today)
  {
    if !HasIsoShape(input) then Err(NotIsoFormat)
    else match parse(input)
      case None => Err(NotIsoFormat)
      case Some(start) => if OldEnough(start, today) then Ok(start) else Err(TooRecent)
  }

  /** The calendar parse only matters for texts of the right shape: two parsers
      that disagree everywhere give the same verdict on a misshapen text. */
  lemma MisshapenTextNeverParsed(input: string, parse1: string -> Option<Day>, parse2: string -> Option<Day>, today: Day)
    requires !HasIsoShape(input)
    ensures ValidateDate(input, parse1, today) == ValidateDate(input, parse2, today) == Err(NotIsoFormat)
  {
  }

  function Abs(x: real): real
  {
    if x < 0.0 then -x else x
  }

  predicate InUnitRange(x: real)
  {
    0.0 <= x <= 1.0
  }

  /** The condition under which the three percentages are accepted. */
  predicate AcceptableSplit(pct: PerCurrency)
  {
    && InUnitRange(pct.usd) && InUnitRange(pct.eur) && InUnitRange(pct.huf)
    && Abs(pct.Total() - 1.0) < SumTolerance
  }

  /** One round of the three percentage prompts; each answer is the number it
      parsed to, or None when the parse failed. */
  function ValidateSplit(usd: Option<real>, eur: Option<real>, huf: Option<real>): (r: Result<PerCurrency, SplitError>)
    ensures r == Err(NotANumber) <==> usd.None? || eur.None? || huf.None?
    ensures r.Ok? <==> usd.Some? && eur.Some? && huf.Some? && AcceptableSplit(PerCurrency(usd.value, eur.value, huf.value))
    ensures r.Ok? ==> r.value == PerCurrency(usd.value, eur.value, huf.value)
    ensures r.Ok? ==> 1.0 - SumTolerance < r.value.Total() < 1.0 + SumTolerance
  {
    if usd.None? || eur.None? || huf.None? then Err(NotANumber)
    else
      var pct := PerCurrency(usd.value, eur.value, huf.value);
      if AcceptableSplit(pct) then Ok(pct) else Err(BadSplit)
  }
}
