# NBP three-currency investment simulator — Dafny model

The program asks for a start date and a split of a 1000 PLN stake across USD,
EUR and HUF, fetches each currency's mid-rate series from the National Bank of
Poland for the 30 days that follow, and reports what the stake is worth at the
end: the end total, each currency's end share, and the profit or loss. It then
writes a start snapshot and an end snapshot to `exchange_rates.json`.

This project models the parts of `api_nbp.py` that carry logic:

- `Validation`: the acceptance rule of the date prompt (ten characters with
  dashes at positions 4 and 7, a successful calendar parse, at least 30 days
  before today) and of the percentage prompts (three numbers, each in [0, 1],
  whose sum is within 1e-10 of 1). Each rule is a function of one round of
  input; the error datatypes name the prompt's two distinct messages.
- `Investment`: `simulate_investment`'s arithmetic over exact reals. Each leg is
  bought at the first rate of its series and sold at the last; units are
  `1000 * pct / rate_start`; the end value is `units * rate_end`; the end total
  is the sum of the legs; each end share is a leg's value over the end total;
  the profit or loss is the end total minus 1000.
- `InvestmentProperties`: what the arithmetic guarantees — end shares sum to
  exactly 1, a zero-weight leg contributes nothing, unchanged rates keep the
  total and the split when the shares sum to exactly 1, with rates that all
  rise (fall) the end total is at least (at most) the invested part of the
  stake, so an accepted split loses (gains) less than 1000 × 1e-10, and an
  accepted split over positive rates never reaches a failing division.
- `Export`: the two exported records, in order, and their consistency with the
  simulation they are built from.

Dates are integer day numbers. The current date and the calendar parse of the
date text are parameters (`today`, `parse`). The three rate series arrive as
the already-extracted sequences of `mid` values.

The program does not check its rate data: it indexes the first and last element
of each series and divides by the first rate and by the end total. The model
does not pretend otherwise: `Investment.Computable` collects exactly these
conditions (non-empty series, non-zero start rates, non-zero end total) and is
the precondition of `SimulateInvestment`. One might expect the program to
reject non-positive rates and to report an empty series or a zero rate as a
typed error; it does neither: a negative rate is used as it is; a zero start
rate, or an end total of zero, raises an uncaught division error; a zero end
rate alone is used as it is. The model follows the code.
`InvestmentProperties.AcceptedInputIsComputable` shows that positive rates are
enough for the computation to complete on any accepted split.

## Model

| member | source | states |
|---|---|---|
| `Validation.ValidateDate` | api_nbp.py:15-25 | A date answer is accepted exactly when it has the YYYY-MM-DD shape, parses, and lies at least 30 days before today; the accepted start's end date is never after today; a misshapen or unparsable text gets the format message, a parsable too-recent one the "at least 30 days old" message |
| `Validation.MisshapenTextNeverParsed` | api_nbp.py:15-17 | For a text failing the shape test the verdict is the format message whatever the calendar parse would say, since the parse is never reached |
| `Validation.ValidateSplit` | api_nbp.py:30-39 | Three answers are accepted exactly when all parse, each lies in [0, 1] and their sum is within 1e-10 of 1; an unparsable answer gives the "valid number" message; an accepted split's total lies strictly between 1 - 1e-10 and 1 + 1e-10 |
| `Investment.SingleQuoteSeries` | api_nbp.py:60-66 | With a single quote in a series, the start rate and the end rate are the same element |
| `Investment.Units` | api_nbp.py:69-71 | The units bought for a share cost exactly that share of the 1000 PLN stake at the start rate |
| `Investment.OpenLeg` | api_nbp.py:60-76 | A leg is bought at the first rate and valued at the last; its end value times the start rate is the invested share times the end rate; a zero share buys nothing and ends at zero; an unchanged rate returns the invested share |
| `Investment.SharesOfWhole` | api_nbp.py:82-84 | Three values divided by their non-zero sum add up to one |
| `Investment.SimulateInvestment` | api_nbp.py:46-87 | The end date is 30 days after the start; the end total is the sum of the legs' end values; each end share times the end total is that leg's end value; the end shares sum to exactly 1; the profit or loss is the end total minus the stake |
| `InvestmentProperties.ZeroWeightLegContributesNothing` | api_nbp.py:69-84 | A currency given share 0 has end value 0 and end share 0, and the end total is the sum of the other two legs |
| `InvestmentProperties.UnchangedRatesKeepTheSplit` | api_nbp.py:69-87 | If no rate moves, the end total is 1000 times the sum of the shares and each end share times that sum is the start share; with an exact sum of 1 the split is unchanged and the profit or loss is 0 |
| `InvestmentProperties.AcceptedSplitUnchangedRatesNoProfit` | api_nbp.py:69-87 | For an accepted split and unmoved rates, the profit or loss is smaller in magnitude than 1000 times the 1e-10 tolerance |
| `InvestmentProperties.AllInUsd` | api_nbp.py:69-84 | The whole stake in USD ends at 1000 scaled by the USD end-to-start rate ratio, and the end split stays all-USD |
| `InvestmentProperties.LegFollowsItsRate` | api_nbp.py:69-76 | A leg with a non-negative share and a positive start rate ends at or above its invested share when its rate rises, at or below it when its rate falls, and is positive when share and end rate are |
| `InvestmentProperties.RisingRatesNeverLose` | api_nbp.py:69-87 | With non-negative shares and positive start rates that all rise or hold, the end total is at least 1000 times the sum of the shares (the invested part of the stake); for an accepted split the profit or loss is above -1000 × 1e-10 |
| `InvestmentProperties.FallingRatesNeverGain` | api_nbp.py:69-87 | With non-negative shares and positive start rates that all fall or hold, the end total is at most 1000 times the sum of the shares (the invested part of the stake); for an accepted split the profit or loss is below 1000 × 1e-10 |
| `InvestmentProperties.AcceptedInputIsComputable` | api_nbp.py:60-84 | An accepted split over non-empty series of positive rates meets every condition under which the computation completes, and the end total is positive |
| `InvestmentProperties.WorkedExample` | api_nbp.py:46-87 | The split (0.5, 0.3, 0.2) with rates USD 4.40 to 4.35, EUR 4.69 to 4.68, HUF 0.0115 to 0.0114 gives a USD leg worth between 494.31 and 494.32 and a loss between 8.06 and 8.07 PLN |
| `Export.ExportSnapshots` | api_nbp.py:187-208 | The export of a simulation holds exactly two records, start first: they are 30 days apart; the first carries the 1000 PLN stake, the split as entered and the first rate of each series; the second carries the end total, the end split (summing to exactly 1) and the last rate of each series |

## Left out

- The greeting, the `input()` prompts, the printed messages and the two `while True` re-prompt loops (api_nbp.py:9-39): console interaction; only the verdict of one round is modelled.
- `datetime.strptime` calendar validation and `datetime.now()` (api_nbp.py:17-18): library calls; they are the `parse` and `today` parameters of `Validation.ValidateDate`.
- `float()` parsing of the percentages (api_nbp.py:30-32): a library call; each answer is given as an `Option<real>`. Python's `nan` and `inf` answers have no `real` counterpart.
- The three HTTP requests and the JSON decoding of the responses (api_nbp.py:50-57): network I/O; the model takes the extracted `mid` sequences.
- The PrettyTable report (api_nbp.py:90-101) and the matplotlib charts (api_nbp.py:104-183): presentation through external libraries.
- Writing `exchange_rates.json` (api_nbp.py:211-212) and formatting dates as `YYYY-MM-DD` text: file I/O and a library call; snapshot dates stay day numbers.
- `Investment.SimulateInvestment`: its profit or loss is the unrounded difference; `round(..., 2)` and IEEE-754 double arithmetic (including how the 1e-10 tolerance behaves under float addition) are not modelled, all arithmetic is over exact reals.
- The `IndexError` on an empty rate series and the `ZeroDivisionError` on a zero start rate or a zero end total (api_nbp.py:60-84): the program does not handle them, so the model has no error result for them; `Investment.Computable` is the precondition that excludes them.
- Repeated runs giving identical results holds trivially of the functions here and is not stated separately.
