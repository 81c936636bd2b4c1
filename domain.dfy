/** Values shared by the input checks, the investment arithmetic and the export:
    calendar days, the fixed 30-day horizon and the per-currency triple
    (USD, EUR, HUF) in which percentages and exchange rates come. */
module Domain {

  /** A calendar date as a day number (days since any fixed epoch). */
  type Day = int

  /** Length of the simulated investment, in days. */
  const HorizonDays: int := 30

  /** One real number for each of the three currencies, in the order USD, EUR, HUF. */
  datatype PerCurrency = PerCurrency(usd: real, eur: real, huf: real)
  {
    function Total(): real { usd + eur + huf }
  }

  /** The last day of the investment period that starts on `start`. */
  function EndDate(start: Day): Day { start + HorizonDays }
}
