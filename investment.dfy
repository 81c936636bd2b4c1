/** The arithmetic of one simulated investment: a fixed stake of 1000 PLN is
    split across USD, EUR and HUF, each leg is bought at the first rate of its
    series and sold at the last, and the legs are summed and compared with the
    stake. Numbers are exact reals. The program never checks that a series is
    non-empty, that a start rate is non-zero or that the end total is non-zero:
    it indexes and divides. Those conditions are therefore preconditions here,
    gathered in `Computable`. */
module Investment {
  import opened Domain
  import opened Validation

  /** The amount invested, in PLN. */
  const StakePln: real := 1000.0

  /** One currency's position: the rates it is bought and sold at, the foreign
      units bought and what they are worth in PLN at the end. */
  datatype Leg = Leg(rateStart: real, rateEnd: real, units: real, valueEnd: real)

  datatype Legs = Legs(usd: Leg, eur: Leg, huf: Leg)

  /** What the simulation computes beyond its inputs. */
  datatype Outcome = Outcome(
    endDate: Day,
    legs: Legs,
    amountEnd: real,
    pctEnd: PerCurrency,
    profitOrLoss: real)

  /** A rate series the program can use without failing: it has a first element
      (and so a last one), and the first is not zero. */
  predicate Quoted(series: seq<real>)
  {
    |series| > 0 && series[0] != 0.0
  }

  function StartRate(series: seq<real>): real
    requires |series| > 0
  {
    series[0]
  }

  function EndRate(series: seq<real>): real
    requires |series| > 0
  {
    series[|series| - 1]
  }

  /** A series with one quote is bought and sold at the same rate. */
  lemma SingleQuoteSeries(series: seq<real>)
    requires |series| == 1
    ensures StartRate(series) == EndRate(series) == series[0]
  {
  }

  /** Foreign units bought with the share `pct` of the stake: they cost exactly that share. */
  function Units(pct: real, rateStart: real): (units: real)
    requires rateStart != 0.0
    ensures units * rateStart == StakePln * pct
  {
    StakePln * pct / rateStart
  }

  /** The leg for share `pct`, bought at the first rate of `series` and valued at its last. */
  function OpenLeg(pct: real, series: seq<real>): (leg: Leg)
    requires Quoted(series)
    ensures leg.rateStart == StartRate(series) && leg.rateEnd == EndRate(series)
    ensures leg.units * leg.rateStart == StakePln * pct
    ensures leg.valueEnd * leg.rateStart == StakePln * pct * leg.rateEnd
    ensures pct == 0.0 ==> leg.units == 0.0 && leg.valueEnd == 0.0
    ensures leg.rateEnd == leg.rateStart ==> leg.valueEnd == StakePln * pct
  {
    var rateStart := StartRate(series);
    var rateEnd := EndRate(series);
    var units := Units(pct, rateStart);
    Leg(rateStart, rateEnd, units, units * rateEnd)
  }

  function OpenLegs(pct: PerCurrency, usd: seq<real>, eur: seq<real>, huf: seq<real>): Legs
    requires Quoted(usd) && Quoted(eur) && Quoted(huf)
  {
    Legs(OpenLeg(pct.usd, usd), OpenLeg(pct.eur, eur), OpenLeg(pct.huf, huf))
  }

  /** The PLN value of all three legs at the end of the period. */
  function AmountEnd(legs: Legs): real
  {
    legs.usd.valueEnd + legs.eur.valueEnd + legs.huf.valueEnd
  }

  /** The inputs on which the computation runs to completion: every series has
      a first and last element, no start rate is zero, and the end total by
      which the end shares are divided is not zero. */
  predicate Computable(pct: PerCurrency, usd: seq<real>, eur: seq<real>, huf: seq<real>)
  {
    && Quoted(usd) && Quoted(eur) && Quoted(huf)
    && AmountEnd(OpenLegs(pct, usd, eur, huf)) != 0.0
  }

  /** Three parts divided by their sum add up to one. */
  lemma SharesOfWhole(a: real, b: real, c: real)
    requires a + b + c != 0.0
    ensures a / (a + b + c) + b / (a + b + c) + c / (a + b + c) == 1.0
  {
  }

  /** The simulation for a start date, a split of the stake and the three rate
      series over the period. */
  function SimulateInvestment(startDate: Day, pct: PerCurrency, usd: seq<real>, eur: seq<real>, huf: seq<real>): (r: Outcome)
    requires Computable(pct, usd, eur, huf)
    ensures r.endDate == startDate + HorizonDays
    ensures r.legs == OpenLegs(pct, usd, eur, huf)
    ensures r.amountEnd == r.legs.usd.valueEnd + r.legs.eur.valueEnd + r.legs.huf.valueEnd
    ensures r.pctEnd.usd * r.amountEnd == r.legs.usd.valueEnd
    ensures r.pctEnd.eur * r.amountEnd == r.legs.eur.valueEnd
    ensures r.pctEnd.huf * r.amountEnd == r.legs.huf.valueEnd
    ensures r.pctEnd.Total() == 1.0
    ensures r.profitOrLoss == r.amountEnd - StakePln
  {
    var legs := OpenLegs(pct, usd, eur, huf);
    var amountEnd := AmountEnd(legs);
    var pctEnd := PerCurrency(
      legs.usd.valueEnd / amountEnd,
      legs.eur.valueEnd / amountEnd,
      legs.huf.valueEnd / amountEnd);
    SharesOfWhole(legs.usd.valueEnd, legs.eur.valueEnd, legs.huf.valueEnd);
    Outcome(EndDate(startDate), legs, amountEnd, pctEnd, amountEnd - StakePln)
  }
}

module InvestmentProperties {
  import opened Domain
  import opened Wrappers
  import opened Validation
  import opened Investment

  /** Every rate series ends where it started. */
  predicate RatesUnchanged(usd: seq<real>, eur: seq<real>, huf: seq<real>)
    requires |usd| > 0 && |eur| > 0 && |huf| > 0
  {
    && EndRate(usd) == StartRate(usd)
    && EndRate(eur) == StartRate(eur)
    && EndRate(huf) == StartRate(huf)
  }

  /** A leg given no share of the stake contributes nothing to the end total
      and ends with a share of zero. */
  lemma ZeroWeightLegContributesNothing(startDate: Day, pct: PerCurrency, usd: seq<real>, eur: seq<real>, huf: seq<real>)
    requires Computable(pct, usd, eur, huf)
    ensures var r := SimulateInvestment(startDate, pct, usd, eur, huf);
      && (pct.usd == 0.0 ==> r.legs.usd.valueEnd == 0.0 && r.pctEnd.usd == 0.0 && r.amountEnd == r.legs.eur.valueEnd + r.legs.huf.valueEnd)
      && (pct.eur == 0.0 ==> r.legs.eur.valueEnd == 0.0 && r.pctEnd.eur == 0.0 && r.amountEnd == r.legs.usd.valueEnd + r.legs.huf.valueEnd)
      && (pct.huf == 0.0 ==> r.legs.huf.valueEnd == 0.0 && r.pctEnd.huf == 0.0 && r.amountEnd == r.legs.usd.valueEnd + r.legs.eur.valueEnd)
  {
  }

  /** When no rate moves, the end total is the stake times the sum of the
      shares, each end share is its start share scaled by that sum, and a split
      summing exactly to one comes back unchanged with no profit or loss. */
  lemma UnchangedRatesKeepTheSplit(startDate: Day, pct: PerCurrency, usd: seq<real>, eur: seq<real>, huf: seq<real>)
    requires Computable(pct, usd, eur, huf)
    requires RatesUnchanged(usd, eur, huf)
    ensures var r := SimulateInvestment(startDate, pct, usd, eur, huf);
      && r.amountEnd == StakePln * pct.Total()
      && r.pctEnd.usd * pct.Total() == pct.usd
      && r.pctEnd.eur * pct.Total() == pct.eur
      && r.pctEnd.huf * pct.Total() == pct.huf
      && (pct.Total() == 1.0 ==> r.pctEnd == pct && r.profitOrLoss == 0.0)
  {
  }

  /** With an accepted split and no rate movement, the profit or loss is within
      the stake times the accepted tolerance of zero. */
  lemma AcceptedSplitUnchangedRatesNoProfit(startDate: Day, usdPct: Option<real>, eurPct: Option<real>, hufPct: Option<real>,
                                            usd: seq<real>, eur: seq<real>, huf: seq<real>)
    requires ValidateSplit(usdPct, eurPct, hufPct).Ok?
    requires Computable(ValidateSplit(usdPct, eurPct, hufPct).value, usd, eur, huf)
    requires RatesUnchanged(usd, eur, huf)
    ensures Abs(SimulateInvestment(startDate, ValidateSplit(usdPct, eurPct, hufPct).value, usd, eur, huf).profitOrLoss) < StakePln * SumTolerance
  {
  }

  /** The whole stake in USD: the end total follows the USD rate and the split stays all-USD. */
  lemma AllInUsd(startDate: Day, usd: seq<real>, eur: seq<real>, huf: seq<real>)
    requires Computable(PerCurrency(1.0, 0.0, 0.0), usd, eur, huf)
    ensures var r := SimulateInvestment(startDate, PerCurrency(1.0, 0.0, 0.0), usd, eur, huf);
      && r.amountEnd * StartRate(usd) == StakePln * EndRate(usd)
      && r.pctEnd == PerCurrency(1.0, 0.0, 0.0)
  {
  }

  /** A leg with a non-negative share bought at a positive rate gains when its
      rate rises, loses when it falls, and is worth something whenever both the
      share and the end rate are positive. */
  lemma LegFollowsItsRate(pct: real, series: seq<real>)
    requires Quoted(series) && pct >= 0.0 && StartRate(series) > 0.0
    ensures var leg := OpenLeg(pct, series);
      && (leg.rateEnd >= leg.rateStart ==> leg.valueEnd >= StakePln * pct)
      && (leg.rateEnd <= leg.rateStart ==> leg.valueEnd <= StakePln * pct)
      && (leg.rateEnd > 0.0 ==> leg.valueEnd >= 0.0)
      && (leg.rateEnd > 0.0 && pct > 0.0 ==> leg.valueEnd > 0.0)
  {
  }

  /** With non-negative shares and positive rates that all rise (or hold), the
      end total is at least the invested part of the stake; for an accepted
      split any loss is smaller than the stake times the accepted tolerance. */
  lemma RisingRatesNeverLose(startDate: Day, pct: PerCurrency, usd: seq<real>, eur: seq<real>, huf: seq<real>)
    requires Computable(pct, usd, eur, huf)
    requires pct.usd >= 0.0 && pct.eur >= 0.0 && pct.huf >= 0.0
    requires StartRate(usd) > 0.0 && StartRate(eur) > 0.0 && StartRate(huf) > 0.0
    requires EndRate(usd) >= StartRate(usd) && EndRate(eur) >= StartRate(eur) && EndRate(huf) >= StartRate(huf)
    ensures SimulateInvestment(startDate, pct, usd, eur, huf).amountEnd >= StakePln * pct.Total()
    ensures AcceptableSplit(pct) ==> SimulateInvestment(startDate, pct, usd, eur, huf).profitOrLoss > -StakePln * SumTolerance
  {
    LegFollowsItsRate(pct.usd, usd);
    LegFollowsItsRate(pct.eur, eur);
    LegFollowsItsRate(pct.huf, huf);
  }

  /** With non-negative shares and positive rates that all fall (or hold), the
      end total is at most the invested part of the stake; for an accepted
      split any gain is smaller than the stake times the accepted tolerance. */
  lemma FallingRatesNeverGain(startDate: Day, pct: PerCurrency, usd: seq<real>, eur: seq<real>, huf: seq<real>)
    requires Computable(pct, usd, eur, huf)
    requires pct.usd >= 0.0 && pct.eur >= 0.0 && pct.huf >= 0.0
    requires StartRate(usd) > 0.0 && StartRate(eur) > 0.0 && StartRate(huf) > 0.0
    requires EndRate(usd) <= StartRate(usd) && EndRate(eur) <= StartRate(eur) && EndRate(huf) <= StartRate(huf)
    ensures SimulateInvestment(startDate, pct, usd, eur, huf).amountEnd <= StakePln * pct.Total()
    ensures AcceptableSplit(pct) ==> SimulateInvestment(startDate, pct, usd, eur, huf).profitOrLoss < StakePln * SumTolerance
  {
    LegFollowsItsRate(pct.usd, usd);
    LegFollowsItsRate(pct.eur, eur);
    LegFollowsItsRate(pct.huf, huf);
  }

  /** An accepted split over non-empty series of positive rates never reaches a
      failing index or division, and the end total is positive. */
  lemma AcceptedInputIsComputable(pct: PerCurrency, usd: seq<real>, eur: seq<real>, huf: seq<real>)
    requires AcceptableSplit(pct)
    requires |usd| > 0 && |eur| > 0 && |huf| > 0
    requires StartRate(usd) > 0.0 && StartRate(eur) > 0.0 && StartRate(huf) > 0.0
    requires EndRate(usd) > 0.0 && EndRate(eur) > 0.0 && EndRate(huf) > 0.0
    ensures Computable(pct, usd, eur, huf)
    ensures AmountEnd(OpenLegs(pct, usd, eur, huf)) > 0.0
  {
    LegFollowsItsRate(pct.usd, usd);
    LegFollowsItsRate(pct.eur, eur);
    LegFollowsItsRate(pct.huf, huf);
    assert pct.usd > 0.0 || pct.eur > 0.0 || pct.huf > 0.0;
  }

  /** A worked example: half in USD, 30% in EUR and 20% in HUF while every
      currency weakens slightly against PLN ends in a loss of about 8.06 PLN. */
  lemma WorkedExample(startDate: Day)
    ensures var r := SimulateInvestment(startDate, PerCurrency(0.5, 0.3, 0.2), [4.40, 4.35], [4.69, 4.68], [0.0115, 0.0114]);
      && 494.31 < r.legs.usd.valueEnd < 494.32
      && -8.07 < r.profitOrLoss < -8.06
  {
  }
}
