/** The two records written to the export file after a simulation: the state
    of the investment on its start date and on its end date. Serialising them
    as JSON text and writing the file are not modelled. */
module Export {
  import opened Domain
  import opened Investment

  /** One exported record: a date, the PLN amount invested, the split of the
      amount and the exchange rate of each currency on that date. */
  datatype Snapshot = Snapshot(date: Day, investmentAmount: real, pct: PerCurrency, rate: PerCurrency)

  function StartRates(legs: Legs): PerCurrency
  {
    PerCurrency(legs.usd.rateStart, legs.eur.rateStart, legs.huf.rateStart)
  }

  function EndRates(legs: Legs): PerCurrency
  {
    PerCurrency(legs.usd.rateEnd, legs.eur.rateEnd, legs.huf.rateEnd)
  }

  /** The export built at the end of a simulation: the start snapshot first,
      the end snapshot second. The snapshots are one horizon apart, the first
      holds the stake, the split as entered and the first rate of each series,
      the second holds the end total, an end split summing to one and the last
      rate of each series. */
  function ExportSnapshots(startDate: Day, pct: PerCurrency, usd: seq<real>, eur: seq<real>, huf: seq<real>): (data: seq<Snapshot>)
    requires Computable(pct, usd, eur, huf)
    ensures |data| == 2
    ensures data[0].date == startDate && data[1].date == startDate + HorizonDays
    ensures data[0].investmentAmount == StakePln
    ensures data[1].investmentAmount == SimulateInvestment(startDate, pct, usd, eur, huf).amountEnd
    ensures data[0].pct == pct
    ensures data[1].pct == SimulateInvestment(startDate, pct, usd, eur, huf).pctEnd
    ensures data[1].pct.Total() == 1.0
    ensures data[0].rate == PerCurrency(usd[0], eur[0], huf[0])
    ensures data[1].rate == PerCurrency(usd[|usd| - 1], eur[|eur| - 1], huf[|huf| - 1])
  {
    var r := SimulateInvestment(startDate, pct, usd, eur, huf);
    [ Snapshot(startDate, StakePln, pct, StartRates(r.legs)),
      Snapshot(r.endDate, r.amountEnd, r.pctEnd, EndRates(r.legs)) ]
  }
}
