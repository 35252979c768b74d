/**
 * The funding calculator (components/FundingCalculator.tsx): the position
 * size, and `runCalculation`, which replays a position against the funding
 * events from a start timestamp on and reports per-event and cumulative
 * income with summary statistics.
 *
 * The text fields are held as what `parseFloat` makes of them: `None` for
 * `NaN`. The start date arrives as the epoch millisecond of its local
 * midnight.
 */
module FundingCalculator {
  import opened Wrappers
  import opened Types
  import RateSeries

  datatype Position = Long | Short

  /** `CalculationResult`, the state `setCalculation` stores. */
  datatype CalculationResult = CalculationResult(
    positionSize: real,
    totalFundingRate: real,
    totalFundingUsd: real,
    fundingEvents: nat,
    avgFundingRate: real,
    returnPercent: real,
    annualizedReturn: real,
    dataPointsAvailable: nat,
    dataPointsUsed: nat)

  /** `parseFloat(amount) || 0`. */
  function InvestmentAmount(amount: Option<real>): (investment: real)
    ensures amount.None? ==> investment == 0.0
    ensures amount.Some? ==> investment == amount.value
  {
    if amount.Some? then amount.value else 0.0
  }

  /** `parseFloat(leverage) || 1`: both `NaN` and 0 give 1, so the multiplier is never 0. */
  function LeverageMultiplier(leverage: Option<real>): (m: real)
    ensures m != 0.0
    ensures leverage.Some? && leverage.value != 0.0 ==> m == leverage.value
  {
    if leverage.Some? && leverage.value != 0.0 then leverage.value else 1.0
  }

  /**
   * The `positionSize` memo, computed the same way as `currentPositionSize`
   * in `runCalculation`: investment times leverage.
   */
  function PositionSize(amount: Option<real>, leverage: Option<real>): (size: real)
    ensures size == 0.0 <==> InvestmentAmount(amount) == 0.0
    ensures LeverageMultiplier(leverage) == 1.0 ==> size == InvestmentAmount(amount)
  {
    var investment, multiplier := InvestmentAmount(amount), LeverageMultiplier(leverage);
    assert investment != 0.0 ==> investment * multiplier != 0.0;
    investment * multiplier
  }

  /**
   * The position size is the investment times the leverage; an unparsable
   * investment counts as 0, an unparsable or zero leverage as 1.
   */
  lemma PositionSizeCases(amount: Option<real>, leverage: Option<real>)
    ensures amount.None? ==> PositionSize(amount, leverage) == 0.0
    ensures amount.Some? && (leverage.None? || leverage.value == 0.0) ==> PositionSize(amount, leverage) == amount.value
    ensures amount.Some? && leverage.Some? && leverage.value != 0.0 ==>
              PositionSize(amount, leverage) == amount.value * leverage.value
  {
  }

  /** `fundingRateData.filter((d) => d.time >= startTimestamp)`. */
  function RelevantRates(data: seq<ChartDataPoint>, startTimestamp: int): (relevant: seq<ChartDataPoint>)
    ensures |relevant| <= |data|
    ensures forall i :: 0 <= i < |relevant| ==> relevant[i].time >= startTimestamp
  {
    if |data| == 0 then []
    else (if data[0].time >= startTimestamp then [data[0]] else []) + RelevantRates(data[1..], startTimestamp)
  }

  /** The filter keeps exactly the points at or after the start timestamp. */
  lemma {:induction false} RelevantRatesMembers(data: seq<ChartDataPoint>, startTimestamp: int)
    ensures forall p :: p in RelevantRates(data, startTimestamp) <==> p in data && p.time >= startTimestamp
  {
    if |data| > 0 {
      RelevantRatesMembers(data[1..], startTimestamp);
      assert data == [data[0]] + data[1..];
    }
  }

  /** The filter keeps input order: filtering a concatenation concatenates the filtered parts. */
  lemma {:induction false} RelevantRatesAppend(p: seq<ChartDataPoint>, q: seq<ChartDataPoint>, startTimestamp: int)
    ensures RelevantRates(p + q, startTimestamp) == RelevantRates(p, startTimestamp) + RelevantRates(q, startTimestamp)
  {
    if |p| == 0 {
      assert p + q == q;
    } else {
      var head := if p[0].time >= startTimestamp then [p[0]] else [];
      assert (p + q)[0] == p[0];
      assert (p + q)[1..] == p[1..] + q;
      RelevantRatesAppend(p[1..], q, startTimestamp);
      assert RelevantRates(p + q, startTimestamp) == head + RelevantRates(p[1..] + q, startTimestamp);
      assert RelevantRates(p, startTimestamp) == head + RelevantRates(p[1..], startTimestamp);
    }
  }

  lemma {:induction false} RelevantRatesKeepsAll(data: seq<ChartDataPoint>, startTimestamp: int)
    requires forall i :: 0 <= i < |data| ==> data[i].time >= startTimestamp
    ensures RelevantRates(data, startTimestamp) == data
  {
    if |data| > 0 {
      RelevantRatesKeepsAll(data[1..], startTimestamp);
    }
  }

  /** On an ascending series the points from the start timestamp on are a suffix of it. */
  lemma {:induction false} RelevantRatesOfAscendingIsSuffix(data: seq<ChartDataPoint>, startTimestamp: int)
    requires RateSeries.AscendingByTime(data)
    ensures RelevantRates(data, startTimestamp) == data[|data| - |RelevantRates(data, startTimestamp)|..]
  {
    if |data| > 0 {
      if data[0].time >= startTimestamp {
        RelevantRatesKeepsAll(data, startTimestamp);
      } else {
        RelevantRatesOfAscendingIsSuffix(data[1..], startTimestamp);
        assert data[1..][|data| - 1 - |RelevantRates(data[1..], startTimestamp)|..]
            == data[|data| - |RelevantRates(data[1..], startTimestamp)|..];
      }
    }
  }

  /** `effectiveRate`: a short position receives the funding rate, a long one pays it. */
  function EffectiveRate(position: Position, rate: real): real
  {
    if position == Short then rate else -rate
  }

  /** `totalFundingRate` after the loop: the effective rates added in order. */
  function TotalEffectiveRate(rates: seq<ChartDataPoint>, position: Position): real
  {
    if |rates| == 0 then 0.0
    else TotalEffectiveRate(rates[..|rates| - 1], position) + EffectiveRate(position, rates[|rates| - 1].fundingRate)
  }

  /** `income` for one event. */
  function Income(size: real, position: Position, rate: ChartDataPoint): real
  {
    size * EffectiveRate(position, rate.fundingRate)
  }

  /** `cumulativeIncome` after the loop: the incomes added in order. */
  function TotalIncome(rates: seq<ChartDataPoint>, size: real, position: Position): real
  {
    if |rates| == 0 then 0.0
    else TotalIncome(rates[..|rates| - 1], size, position) + Income(size, position, rates[|rates| - 1])
  }

  /** `incomeData` after the loop: one point pushed per event. */
  function IncomeSeries(rates: seq<ChartDataPoint>, size: real, position: Position): (points: seq<IncomeDataPoint>)
    ensures |points| == |rates|
    ensures forall i :: 0 <= i < |rates| ==> points[i].time == rates[i].time && points[i].formattedTime == rates[i].formattedTime
  {
    if |rates| == 0 then []
    else
      var last := rates[|rates| - 1];
      IncomeSeries(rates[..|rates| - 1], size, position)
        + [IncomeDataPoint(last.time, last.formattedTime, Income(size, position, last), TotalIncome(rates, size, position))]
  }

  /** The incomes of a list of income points, added in order. */
  function SumOfIncomes(points: seq<IncomeDataPoint>): real
  {
    if |points| == 0 then 0.0 else SumOfIncomes(points[..|points| - 1]) + points[|points| - 1].income
  }

  /**
   * One income point per event, in event order, with the event's time and
   * label, the event's income, and the running total up to that event.
   */
  lemma {:induction false} IncomeSeriesShape(rates: seq<ChartDataPoint>, size: real, position: Position)
    ensures forall i :: 0 <= i < |rates| ==>
              IncomeSeries(rates, size, position)[i]
              == IncomeDataPoint(rates[i].time, rates[i].formattedTime, Income(size, position, rates[i]),
                                 TotalIncome(rates[..i + 1], size, position))
  {
    if |rates| > 0 {
      var n := |rates|;
      var init := rates[..n - 1];
      var series := IncomeSeries(rates, size, position);
      assert series == IncomeSeries(init, size, position) + [series[n - 1]];
      IncomeSeriesShape(init, size, position);
      forall i | 0 <= i < n
        ensures series[i] == IncomeDataPoint(rates[i].time, rates[i].formattedTime, Income(size, position, rates[i]),
                                             TotalIncome(rates[..i + 1], size, position))
      {
        if i < n - 1 {
          assert series[i] == IncomeSeries(init, size, position)[i];
          assert init[i] == rates[i] && init[..i + 1] == rates[..i + 1];
        } else {
          assert rates[..i + 1] == rates;
        }
      }
    }
  }

  /** Each cumulative income is the sum of the incomes up to and including its own. */
  lemma {:induction false} CumulativeIsRunningSum(rates: seq<ChartDataPoint>, size: real, position: Position, k: int)
    requires 0 <= k < |rates|
    ensures IncomeSeries(rates, size, position)[k].cumulativeIncome
            == SumOfIncomes(IncomeSeries(rates, size, position)[..k + 1])
  {
    var init := rates[..|rates| - 1];
    var series := IncomeSeries(rates, size, position);
    if k == |rates| - 1 {
      SumOfIncomesIsTotal(rates, size, position);
      assert series[..k + 1] == series;
    } else {
      CumulativeIsRunningSum(init, size, position, k);
      assert series[..k + 1] == IncomeSeries(init, size, position)[..k + 1];
    }
  }

  lemma {:induction false} SumOfIncomesIsTotal(rates: seq<ChartDataPoint>, size: real, position: Position)
    ensures SumOfIncomes(IncomeSeries(rates, size, position)) == TotalIncome(rates, size, position)
  {
    if |rates| > 0 {
      var s := IncomeSeries(rates, size, position);
      SumOfIncomesIsTotal(rates[..|rates| - 1], size, position);
      assert s[..|s| - 1] == IncomeSeries(rates[..|rates| - 1], size, position);
    }
  }

  /** The accumulated income is the position size times the accumulated effective rate. */
  lemma {:induction false} TotalIncomeIsSizeTimesRate(rates: seq<ChartDataPoint>, size: real, position: Position)
    ensures TotalIncome(rates, size, position) == size * TotalEffectiveRate(rates, position)
  {
    if |rates| > 0 {
      TotalIncomeIsSizeTimesRate(rates[..|rates| - 1], size, position);
    }
  }

  /** While every rate is non-negative, a short position's total effective rate is non-negative and a long one's non-positive. */
  lemma {:induction false} TotalRateSignFollowsPosition(rates: seq<ChartDataPoint>, position: Position)
    requires forall i :: 0 <= i < |rates| ==> rates[i].fundingRate >= 0.0
    ensures position == Short ==> TotalEffectiveRate(rates, position) >= 0.0
    ensures position == Long ==> TotalEffectiveRate(rates, position) <= 0.0
  {
    if |rates| > 0 {
      TotalRateSignFollowsPosition(rates[..|rates| - 1], position);
    }
  }

  /**
   * While every rate is non-negative, a short position of non-negative size
   * receives funding overall and a long one pays it.
   */
  lemma IncomeSignFollowsPosition(rates: seq<ChartDataPoint>, size: real, position: Position)
    requires size >= 0.0
    requires forall i :: 0 <= i < |rates| ==> rates[i].fundingRate >= 0.0
    ensures position == Short ==> TotalIncome(rates, size, position) >= 0.0
    ensures position == Long ==> TotalIncome(rates, size, position) <= 0.0
  {
    TotalIncomeIsSizeTimesRate(rates, size, position);
    TotalRateSignFollowsPosition(rates, position);
    var total := TotalEffectiveRate(rates, position);
    assert position == Short ==> size * total >= 0.0;
    assert position == Long ==> size * total <= 0.0;
  }

  /** Swapping the side of the position negates the accumulated effective rate and the accumulated income. */
  lemma {:induction false} TotalsFlipWithPosition(rates: seq<ChartDataPoint>, size: real)
    ensures TotalEffectiveRate(rates, Short) == -TotalEffectiveRate(rates, Long)
    ensures TotalIncome(rates, size, Short) == -TotalIncome(rates, size, Long)
  {
    if |rates| > 0 {
      TotalsFlipWithPosition(rates[..|rates| - 1], size);
    }
  }

  /** `returnPercent`: the income as a percentage of a positive investment, otherwise 0. */
  function ReturnPercent(totalFundingUsd: real, investment: real): (percent: real)
    ensures investment > 0.0 ==> percent * investment == totalFundingUsd * 100.0
    ensures investment <= 0.0 ==> percent == 0.0
  {
    if investment > 0.0 then (totalFundingUsd / investment) * 100.0 else 0.0
  }

  /** `actualDays`: the span between two timestamps in days. */
  function ActualDays(firstTime: int, lastTime: int): (days: real)
    ensures days * (DAY_MS as real) == (lastTime - firstTime) as real
    ensures days > 0.0 <==> lastTime > firstTime
  {
    ((lastTime - firstTime) as real) / (DAY_MS as real)
  }

  /** `annualizedReturn`: the return scaled to 365 days, or 0 over a span that is not positive. */
  function AnnualizedReturn(returnPercent: real, actualDays: real): (annualized: real)
    ensures actualDays > 0.0 ==> annualized * actualDays == returnPercent * 365.0
    ensures actualDays <= 0.0 ==> annualized == 0.0
  {
    if actualDays > 0.0 then (returnPercent / actualDays) * 365.0 else 0.0
  }

  /** `avgFundingRate`: the total effective rate over the number of events. */
  function MeanRate(total: real, count: nat): (mean: real)
    requires count > 0
    ensures mean * (count as real) == total
  {
    total / (count as real)
  }

  /** Each summary statistic is linear in the income it is computed from: negating the input negates it. */
  lemma ReturnPercentNegates(totalFundingUsd: real, investment: real)
    ensures ReturnPercent(-totalFundingUsd, investment) == -ReturnPercent(totalFundingUsd, investment)
  {
    if investment > 0.0 {
      assert (-totalFundingUsd) / investment == -(totalFundingUsd / investment);
    }
  }

  lemma AnnualizedReturnNegates(returnPercent: real, actualDays: real)
    ensures AnnualizedReturn(-returnPercent, actualDays) == -AnnualizedReturn(returnPercent, actualDays)
  {
    if actualDays > 0.0 {
      assert (-returnPercent) / actualDays == -(returnPercent / actualDays);
    }
  }

  lemma MeanRateNegates(total: real, count: nat)
    requires count > 0
    ensures MeanRate(-total, count) == -MeanRate(total, count)
  {
    assert (-total) / (count as real) == -(total / (count as real));
  }

  /** The statistics `runCalculation` stores after replaying the non-empty list of events `relevant`. */
  function Summary(relevant: seq<ChartDataPoint>, size: real, investment: real, position: Position,
                   available: nat): (c: CalculationResult)
    requires |relevant| > 0
    ensures c.positionSize == size && c.dataPointsAvailable == available
    ensures c.fundingEvents == c.dataPointsUsed == |relevant|
  {
    var totalFundingRate := TotalEffectiveRate(relevant, position);
    var totalFundingUsd := TotalIncome(relevant, size, position);
    var returnPercent := ReturnPercent(totalFundingUsd, investment);
    var days := ActualDays(relevant[0].time, relevant[|relevant| - 1].time);
    CalculationResult(size, totalFundingRate, totalFundingUsd, |relevant|, MeanRate(totalFundingRate, |relevant|),
                      returnPercent, AnnualizedReturn(returnPercent, days), available, |relevant|)
  }

  /** What one `runCalculation` stores and hands to `onSimulatedIncomeChange`. */
  datatype Simulation = Simulation(calculation: CalculationResult, incomeData: seq<IncomeDataPoint>)

  /**
   * The result of `runCalculation` for the given inputs: with no event from
   * the start timestamp on, or an investment that counts as 0, an all-zero
   * result and no income points; otherwise the summary of the events.
   */
  function Simulate(data: seq<ChartDataPoint>, amount: Option<real>, leverage: Option<real>,
                    position: Position, startTimestamp: int): (s: Simulation)
    ensures s.calculation.positionSize == PositionSize(amount, leverage)
    ensures s.calculation.dataPointsAvailable == |data|
    ensures s.calculation.dataPointsUsed == s.calculation.fundingEvents == |s.incomeData|
    ensures |RelevantRates(data, startTimestamp)| == 0 || InvestmentAmount(amount) == 0.0 ==>
              && s.incomeData == []
              && s.calculation == CalculationResult(PositionSize(amount, leverage), 0.0, 0.0, 0, 0.0, 0.0, 0.0, |data|, 0)
    ensures |RelevantRates(data, startTimestamp)| > 0 && InvestmentAmount(amount) != 0.0 ==>
              && s.calculation.dataPointsUsed == |RelevantRates(data, startTimestamp)|
              && s.incomeData == IncomeSeries(RelevantRates(data, startTimestamp), PositionSize(amount, leverage), position)
  {
    var investment := InvestmentAmount(amount);
    var size := PositionSize(amount, leverage);
    var relevant := RelevantRates(data, startTimestamp);
    if |relevant| == 0 || investment == 0.0 then
      Simulation(CalculationResult(size, 0.0, 0.0, 0, 0.0, 0.0, 0.0, |data|, 0), [])
    else
      Simulation(Summary(relevant, size, investment, position, |data|), IncomeSeries(relevant, size, position))
  }

  /**
   * The `forEach` loop of `runCalculation`: per event, adds the effective
   * rate and the income to the running totals and pushes an income point.
   */
  method AccumulateIncome(relevantRates: seq<ChartDataPoint>, currentPositionSize: real, position: Position)
    returns (totalFundingRate: real, cumulativeIncome: real, incomeData: seq<IncomeDataPoint>)
    ensures totalFundingRate == TotalEffectiveRate(relevantRates, position)
    ensures cumulativeIncome == TotalIncome(relevantRates, currentPositionSize, position)
    ensures incomeData == IncomeSeries(relevantRates, currentPositionSize, position)
  {
    cumulativeIncome := 0.0;
    totalFundingRate := 0.0;
    incomeData := [];
    for index := 0 to |relevantRates|
      invariant totalFundingRate == TotalEffectiveRate(relevantRates[..index], position)
      invariant cumulativeIncome == TotalIncome(relevantRates[..index], currentPositionSize, position)
      invariant incomeData == IncomeSeries(relevantRates[..index], currentPositionSize, position)
    {
      var rate := relevantRates[index];
      assert relevantRates[..index + 1][..index] == relevantRates[..index];
      var effectiveRate := EffectiveRate(position, rate.fundingRate);
      totalFundingRate := totalFundingRate + effectiveRate;
      var income := currentPositionSize * effectiveRate;
      cumulativeIncome := cumulativeIncome + income;
      incomeData := incomeData + [IncomeDataPoint(rate.time, rate.formattedTime, income, cumulativeIncome)];
    }
    assert relevantRates[..|relevantRates|] == relevantRates;
  }

  /**
   * `runCalculation`: filters the events, runs the accumulating loop over
   * them and derives the summary statistics.
   */
  method RunCalculation(fundingRateData: seq<ChartDataPoint>, amount: Option<real>, leverage: Option<real>,
                        position: Position, startTimestamp: int)
    returns (calculation: CalculationResult, incomeData: seq<IncomeDataPoint>)
    ensures Simulation(calculation, incomeData) == Simulate(fundingRateData, amount, leverage, position, startTimestamp)
  {
    var investmentAmount := InvestmentAmount(amount);
    var leverageMultiplier := LeverageMultiplier(leverage);
    var currentPositionSize := investmentAmount * leverageMultiplier;
    assert currentPositionSize == PositionSize(amount, leverage);
    var relevantRates := RelevantRates(fundingRateData, startTimestamp);

    if |relevantRates| == 0 || investmentAmount == 0.0 {
      calculation := CalculationResult(currentPositionSize, 0.0, 0.0, 0, 0.0, 0.0, 0.0, |fundingRateData|, 0);
      incomeData := [];
      return;
    }

    var totalFundingRate, cumulativeIncome;
    totalFundingRate, cumulativeIncome, incomeData := AccumulateIncome(relevantRates, currentPositionSize, position);

    var totalFundingUsd := cumulativeIncome;
    var avgFundingRate := MeanRate(totalFundingRate, |relevantRates|);
    var returnPercent := ReturnPercent(totalFundingUsd, investmentAmount);
    var firstRateTime := relevantRates[0].time;
    var lastRateTime := relevantRates[|relevantRates| - 1].time;
    var actualDays := ActualDays(firstRateTime, lastRateTime);
    var annualizedReturn := AnnualizedReturn(returnPercent, actualDays);

    calculation := CalculationResult(currentPositionSize, totalFundingRate, totalFundingUsd, |relevantRates|,
                                     avgFundingRate, returnPercent, annualizedReturn,
                                     |fundingRateData|, |relevantRates|);
    assert calculation == Summary(relevantRates, currentPositionSize, investmentAmount, position, |fundingRateData|);
  }

  /** The stored total income is the position size times the stored total effective rate. */
  lemma SummaryIncomeIsSizeTimesRate(relevant: seq<ChartDataPoint>, size: real, investment: real, position: Position,
                                     available: nat)
    requires |relevant| > 0
    ensures var c := Summary(relevant, size, investment, position, available);
            c.totalFundingUsd == c.positionSize * c.totalFundingRate
  {
    TotalIncomeIsSizeTimesRate(relevant, size, position);
  }

  /**
   * In a run with events, the last cumulative income is the stored total
   * income, and the stored statistics are those of `Summary` over the
   * events from the start timestamp on.
   */
  lemma FinalCumulativeIsTotal(data: seq<ChartDataPoint>, amount: Option<real>, leverage: Option<real>,
                               position: Position, startTimestamp: int)
    requires |RelevantRates(data, startTimestamp)| > 0 && InvestmentAmount(amount) != 0.0
    ensures var s := Simulate(data, amount, leverage, position, startTimestamp);
            && |s.incomeData| > 0
            && s.incomeData[|s.incomeData| - 1].cumulativeIncome == s.calculation.totalFundingUsd
            && s.calculation == Summary(RelevantRates(data, startTimestamp), PositionSize(amount, leverage),
                                        InvestmentAmount(amount), position, |data|)
  {
    var relevant := RelevantRates(data, startTimestamp);
    var size := PositionSize(amount, leverage);
    var c := Summary(relevant, size, InvestmentAmount(amount), position, |data|);
    var series := IncomeSeries(relevant, size, position);
    assert Simulate(data, amount, leverage, position, startTimestamp) == Simulation(c, series);
    assert series[|series| - 1].cumulativeIncome == TotalIncome(relevant, size, position);
  }

  /** The statistics of a short run are the negated statistics of the long run over the same events. */
  lemma SummaryFlipsWithPosition(relevant: seq<ChartDataPoint>, size: real, investment: real, available: nat)
    requires |relevant| > 0
    ensures var short, long := Summary(relevant, size, investment, Short, available),
                               Summary(relevant, size, investment, Long, available);
            && short.totalFundingRate == -long.totalFundingRate
            && short.totalFundingUsd == -long.totalFundingUsd
            && short.avgFundingRate == -long.avgFundingRate
            && short.returnPercent == -long.returnPercent
            && short.annualizedReturn == -long.annualizedReturn
  {
    var long := Summary(relevant, size, investment, Long, available);
    TotalsFlipWithPosition(relevant, size);
    MeanRateNegates(long.totalFundingRate, |relevant|);
    ReturnPercentNegates(long.totalFundingUsd, investment);
    AnnualizedReturnNegates(long.returnPercent, ActualDays(relevant[0].time, relevant[|relevant| - 1].time));
  }

  /** Event by event, a short position's income is the negated income of a long one. */
  lemma {:induction false} IncomesFlipWithPosition(rates: seq<ChartDataPoint>, size: real)
    ensures forall i :: 0 <= i < |rates| ==>
              IncomeSeries(rates, size, Short)[i].income == -IncomeSeries(rates, size, Long)[i].income
  {
    if |rates| > 0 {
      var n := |rates|;
      var init := rates[..n - 1];
      IncomesFlipWithPosition(init, size);
      var short, long := IncomeSeries(rates, size, Short), IncomeSeries(rates, size, Long);
      assert short[..n - 1] == IncomeSeries(init, size, Short);
      assert long[..n - 1] == IncomeSeries(init, size, Long);
      var rate := rates[n - 1].fundingRate;
      assert size * -rate == -(size * rate);
      assert short[n - 1].income == -long[n - 1].income;
    }
  }

  /**
   * For the same inputs, a short and a long position see opposite incomes,
   * opposite totals and opposite returns.
   */
  lemma SignSymmetry(data: seq<ChartDataPoint>, amount: Option<real>, leverage: Option<real>, startTimestamp: int)
    ensures var short := Simulate(data, amount, leverage, Short, startTimestamp);
            var long := Simulate(data, amount, leverage, Long, startTimestamp);
            && short.calculation.totalFundingRate == -long.calculation.totalFundingRate
            && short.calculation.totalFundingUsd == -long.calculation.totalFundingUsd
            && short.calculation.avgFundingRate == -long.calculation.avgFundingRate
            && short.calculation.returnPercent == -long.calculation.returnPercent
            && short.calculation.annualizedReturn == -long.calculation.annualizedReturn
            && |short.incomeData| == |long.incomeData|
            && forall i :: 0 <= i < |short.incomeData| ==>
                 short.incomeData[i].income == -long.incomeData[i].income
  {
    var relevant := RelevantRates(data, startTimestamp);
    var size := PositionSize(amount, leverage);
    var investment := InvestmentAmount(amount);
    if |relevant| > 0 && investment != 0.0 {
      var short, long := Summary(relevant, size, investment, Short, |data|), Summary(relevant, size, investment, Long, |data|);
      assert Simulate(data, amount, leverage, Short, startTimestamp) == Simulation(short, IncomeSeries(relevant, size, Short));
      assert Simulate(data, amount, leverage, Long, startTimestamp) == Simulation(long, IncomeSeries(relevant, size, Long));
      SummaryFlipsWithPosition(relevant, size, investment, |data|);
      IncomesFlipWithPosition(relevant, size);
    }
  }

  /** A run whose events share one timestamp, or run backwards, reports no annualized return. */
  lemma NoPositiveSpanNoAnnualizedReturn(data: seq<ChartDataPoint>, amount: Option<real>, leverage: Option<real>,
                                         position: Position, startTimestamp: int)
    requires |RelevantRates(data, startTimestamp)| > 0
    requires RelevantRates(data, startTimestamp)[|RelevantRates(data, startTimestamp)| - 1].time
             <= RelevantRates(data, startTimestamp)[0].time
    ensures Simulate(data, amount, leverage, position, startTimestamp).calculation.annualizedReturn == 0.0
  {
  }

  /** A negative investment still yields incomes, but a return of 0 percent. */
  lemma NegativeInvestmentReturnsZeroPercent(data: seq<ChartDataPoint>, amount: Option<real>, leverage: Option<real>,
                                             position: Position, startTimestamp: int)
    requires InvestmentAmount(amount) < 0.0
    ensures Simulate(data, amount, leverage, position, startTimestamp).calculation.returnPercent == 0.0
    ensures Simulate(data, amount, leverage, position, startTimestamp).calculation.annualizedReturn == 0.0
  {
  }

  /**
   * Two events, 0.01 % then -0.02 %, eight hours apart, on a 1000 short
   * position at leverage 1: incomes 0.1 and -0.2, cumulative 0.1 and -0.1,
   * a return of -0.01 % over a third of a day, -10.95 % a year.
   */
  lemma WorkedExample(label0: string, label1: string, pct0: string, pct1: string)
    ensures var data := [ChartDataPoint(0, label0, 0.0001, pct0), ChartDataPoint(28_800_000, label1, -0.0002, pct1)];
            var s := Simulate(data, Some(1000.0), Some(1.0), Short, 0);
            && s.incomeData == [IncomeDataPoint(0, label0, 0.1, 0.1), IncomeDataPoint(28_800_000, label1, -0.2, -0.1)]
            && s.calculation.totalFundingUsd == -0.1
            && s.calculation.returnPercent == -0.01
            && s.calculation.annualizedReturn == -10.95
            && s.calculation.dataPointsUsed == 2
  {
    var data := [ChartDataPoint(0, label0, 0.0001, pct0), ChartDataPoint(28_800_000, label1, -0.0002, pct1)];
    assert data[1..][1..] == [];
    assert RelevantRates(data, 0) == data;
    var first := data[..1];
    assert first[..0] == [];
    assert TotalIncome(first, 1000.0, Short) == 0.1;
    assert IncomeSeries(first, 1000.0, Short) == [IncomeDataPoint(0, label0, 0.1, 0.1)];
    assert data[..|data| - 1] == first;
    assert TotalIncome(data, 1000.0, Short) == -0.1;
    assert IncomeSeries(data, 1000.0, Short) == [IncomeDataPoint(0, label0, 0.1, 0.1), IncomeDataPoint(28_800_000, label1, -0.2, -0.1)];
    assert ReturnPercent(-0.1, 1000.0) == -0.01;
    assert ActualDays(0, 28_800_000) == 1.0 / 3.0;
    assert AnnualizedReturn(-0.01, 1.0 / 3.0) == -10.95;
  }
}
