/**
 * The funding-rate series handled by the page (app/page.tsx): the time
 * window of a query, the conversion of exchange records into chart points,
 * the ascending sort of the all-history series, the mean-rate statistic and
 * the choice of the series handed to the calculator.
 */
module RateSeries {
  import opened Wrappers
  import opened Types

  /** A query window `{ startTime, endTime }` in epoch milliseconds. */
  datatype TimeWindow = TimeWindow(startTime: int, endTime: int)

  /** The `ranges` table: the length of each named window, None for any other key. */
  function RangeLength(range: string): Option<int>
  {
    if range == "24h" then Some(24 * HOUR_MS)
    else if range == "7d" then Some(7 * DAY_MS)
    else if range == "30d" then Some(30 * DAY_MS)
    else if range == "90d" then Some(90 * DAY_MS)
    else None
  }

  /**
   * `getTimeRange`: the window of the given name ending at `now`; a name the
   * table lacks falls back to the seven-day window.
   */
  function GetTimeRange(range: string, now: int): (w: TimeWindow)
    ensures w.endTime == now
    ensures range == "24h" ==> w.startTime == now - 86_400_000
    ensures range == "7d" ==> w.startTime == now - 604_800_000
    ensures range == "30d" ==> w.startTime == now - 2_592_000_000
    ensures range == "90d" ==> w.startTime == now - 7_776_000_000
    ensures range != "24h" && range != "7d" && range != "30d" && range != "90d" ==>
              w.startTime == now - 604_800_000
    ensures 86_400_000 <= w.endTime - w.startTime <= 7_776_000_000
  {
    var length := RangeLength(range);
    TimeWindow(now - (if length.Some? then length.value else 7 * DAY_MS), now)
  }

  /** One exchange record as a chart point; `toFixed4` stands for `toFixed(4)`. */
  function ToChartPoint(item: FundingRate, formatTime: int -> string, toFixed4: real -> string): ChartDataPoint
  {
    ChartDataPoint(item.fundingTime, formatTime(item.fundingTime), item.fundingRate,
                   toFixed4(item.fundingRate * 100.0) + "%")
  }

  /**
   * `transformFundingRateData`: one chart point per record, in record order,
   * carrying the record's time and parsed rate.
   */
  function TransformFundingRateData(data: seq<FundingRate>, formatTime: int -> string, toFixed4: real -> string)
    : (points: seq<ChartDataPoint>)
    ensures |points| == |data|
    ensures forall i :: 0 <= i < |data| ==>
              && points[i].time == data[i].fundingTime
              && points[i].fundingRate == data[i].fundingRate
              && points[i].formattedTime == formatTime(data[i].fundingTime)
              && points[i].fundingRatePercent == toFixed4(data[i].fundingRate * 100.0) + "%"
  {
    if |data| == 0 then []
    else [ToChartPoint(data[0], formatTime, toFixed4)] + TransformFundingRateData(data[1..], formatTime, toFixed4)
  }

  ghost predicate AscendingByFundingTime(s: seq<FundingRate>)
  {
    forall i, j :: 0 <= i < j < |s| ==> s[i].fundingTime <= s[j].fundingTime
  }

  ghost predicate AscendingByTime(s: seq<ChartDataPoint>)
  {
    forall i, j :: 0 <= i < j < |s| ==> s[i].time <= s[j].time
  }

  /** The records of `s` whose funding time is `t`, in the order they appear. */
  function WithFundingTime(s: seq<FundingRate>, t: int): seq<FundingRate>
  {
    if |s| == 0 then []
    else (if s[0].fundingTime == t then [s[0]] else []) + WithFundingTime(s[1..], t)
  }

  lemma {:induction false} WithFundingTimeAppend(p: seq<FundingRate>, q: seq<FundingRate>, t: int)
    ensures WithFundingTime(p + q, t) == WithFundingTime(p, t) + WithFundingTime(q, t)
  {
    if |p| == 0 {
      assert p + q == q;
    } else {
      assert (p + q)[1..] == p[1..] + q;
      WithFundingTimeAppend(p[1..], q, t);
    }
  }

  /** `s` and `r` hold, for every funding time, the same records in the same order. */
  ghost predicate SameTies(s: seq<FundingRate>, r: seq<FundingRate>)
  {
    forall t :: WithFundingTime(s, t) == WithFundingTime(r, t)
  }

  lemma SameTiesTransitive(s: seq<FundingRate>, r: seq<FundingRate>, u: seq<FundingRate>)
    requires SameTies(s, r) && SameTies(r, u)
    ensures SameTies(s, u)
  {
  }

  /**
   * Exchanging two neighbours whose funding times differ leaves, for every
   * time, the records of that time in the same relative order.
   */
  lemma SwapDistinctNeighboursKeepsTies(s: seq<FundingRate>, j: int)
    requires 0 < j < |s|
    requires s[j - 1].fundingTime != s[j].fundingTime
    ensures SameTies(s[j - 1 := s[j]][j := s[j - 1]], s)
  {
    var p, x, y, q := s[..j - 1], s[j - 1], s[j], s[j + 1..];
    assert s == p + [x, y] + q;
    assert s[j - 1 := y][j := x] == p + [y, x] + q;
    forall t ensures WithFundingTime(p + [y, x] + q, t) == WithFundingTime(p + [x, y] + q, t) {
      assert [x, y][1..] == [y] && [y, x][1..] == [x];
      assert [x][1..] == [] && [y][1..] == [];
      assert WithFundingTime([x, y], t) == WithFundingTime([y, x], t);
      WithFundingTimeAppend(p + [y, x], q, t);
      WithFundingTimeAppend(p, [y, x], t);
      WithFundingTimeAppend(p + [x, y], q, t);
      WithFundingTimeAppend(p, [x, y], t);
    }
  }

  /** The number of copies of `x` in `s` is its number of copies among the records of its own funding time. */
  lemma {:induction false} CountAmongTies(s: seq<FundingRate>, x: FundingRate)
    ensures multiset(s)[x] == multiset(WithFundingTime(s, x.fundingTime))[x]
  {
    if |s| > 0 {
      assert s == [s[0]] + s[1..];
      CountAmongTies(s[1..], x);
    }
  }

  /** Records in the same order within every funding time are a permutation of each other. */
  lemma SameTiesSameMultiset(s: seq<FundingRate>, r: seq<FundingRate>)
    requires SameTies(s, r)
    ensures multiset(s) == multiset(r)
  {
    forall x ensures multiset(s)[x] == multiset(r)[x] {
      CountAmongTies(s, x);
      CountAmongTies(r, x);
    }
  }

  /**
   * One pass of the insertion sort: moves `a[i]` left past every larger
   * neighbour, so that `a[..i + 1]` is ascending.
   */
  method SinkIntoPlace(a: array<FundingRate>, i: int)
    requires 0 <= i < a.Length
    requires forall k, l :: 0 <= k < l < i ==> a[k].fundingTime <= a[l].fundingTime
    modifies a
    ensures forall k, l :: 0 <= k < l <= i ==> a[k].fundingTime <= a[l].fundingTime
    ensures SameTies(a[..], old(a[..]))
    ensures a[i + 1..] == old(a[i + 1..])
  {
    var j := i;
    while j > 0 && a[j - 1].fundingTime > a[j].fundingTime
      invariant 0 <= j <= i
      invariant forall k, l :: 0 <= k < l <= i && k != j && l != j ==> a[k].fundingTime <= a[l].fundingTime
      invariant forall l :: j < l <= i ==> a[j].fundingTime < a[l].fundingTime
      invariant SameTies(a[..], old(a[..]))
      invariant a[i + 1..] == old(a[i + 1..])
    {
      ghost var before := a[..];
      a[j - 1], a[j] := a[j], a[j - 1];
      assert a[..] == before[j - 1 := before[j]][j := before[j - 1]];
      assert a[i + 1..] == before[i + 1..];
      SwapDistinctNeighboursKeepsTies(before, j);
      SameTiesTransitive(a[..], before, old(a[..]));
      j := j - 1;
    }
  }

  /**
   * `data.sort((a, b) => a.fundingTime - b.fundingTime)`: sorts the records in
   * place by funding time. The result is a permutation of the input, and
   * records with equal funding times keep their relative order (the sort is
   * stable).
   */
  method SortByFundingTime(a: array<FundingRate>)
    modifies a
    ensures AscendingByFundingTime(a[..])
    ensures SameTies(a[..], old(a[..]))
    ensures multiset(a[..]) == old(multiset(a[..]))
  {
    for i := 0 to a.Length
      invariant forall k, l :: 0 <= k < l < i ==> a[k].fundingTime <= a[l].fundingTime
      invariant SameTies(a[..], old(a[..]))
    {
      SinkIntoPlace(a, i);
    }
    SameTiesSameMultiset(a[..], old(a[..]));
  }

  /** The chart points of a series keep its time order. */
  lemma TransformKeepsAscending(data: seq<FundingRate>, formatTime: int -> string, toFixed4: real -> string)
    requires AscendingByFundingTime(data)
    ensures AscendingByTime(TransformFundingRateData(data, formatTime, toFixed4))
  {
  }

  /**
   * `fetchAllFundingRate` after the fetch: sorts the records in place, then
   * converts them, so that the all-history series is ascending by time.
   */
  method AllHistorySeries(a: array<FundingRate>, formatTime: int -> string, toFixed4: real -> string)
    returns (series: seq<ChartDataPoint>)
    modifies a
    ensures multiset(a[..]) == old(multiset(a[..]))
    ensures SameTies(a[..], old(a[..]))
    ensures series == TransformFundingRateData(a[..], formatTime, toFixed4)
    ensures AscendingByTime(series)
  {
    SortByFundingTime(a);
    series := TransformFundingRateData(a[..], formatTime, toFixed4);
    TransformKeepsAscending(a[..], formatTime, toFixed4);
  }

  /** The series handed to the calculator: the all-history one unless it is empty. */
  function CalculatorInput(allHistory: seq<ChartDataPoint>, windowed: seq<ChartDataPoint>): (input: seq<ChartDataPoint>)
    ensures input == allHistory || input == windowed
    ensures |allHistory| > 0 ==> input == allHistory
    ensures |input| == 0 <==> |allHistory| == 0 && |windowed| == 0
  {
    if |allHistory| > 0 then allHistory else windowed
  }

  /** `reduce((sum, d) => sum + d.fundingRate, 0)`: the rates summed left to right. */
  function SumRates(series: seq<ChartDataPoint>): real
  {
    if |series| == 0 then 0.0 else SumRates(series[..|series| - 1]) + series[|series| - 1].fundingRate
  }

  /** `avgRate`: the mean rate of the windowed series, 0 when it is empty. */
  function AvgRate(series: seq<ChartDataPoint>): (avg: real)
    ensures |series| == 0 ==> avg == 0.0
    ensures |series| > 0 ==> avg * (|series| as real) == SumRates(series)
  {
    if |series| > 0 then SumRates(series) / (|series| as real) else 0.0
  }

  /** The sum over a concatenation is the sum of the sums: splitting the series anywhere does not change the total. */
  lemma {:induction false} SumRatesAppend(p: seq<ChartDataPoint>, q: seq<ChartDataPoint>)
    ensures SumRates(p + q) == SumRates(p) + SumRates(q)
  {
    if |q| > 0 {
      var init := q[..|q| - 1];
      SumRatesAppend(p, init);
      assert (p + q)[..|p + q| - 1] == p + init;
    } else {
      assert p + q == p;
    }
  }

  /** Every rate between `lo` and `hi` puts the sum between `n * lo` and `n * hi`. */
  lemma {:induction false} SumRatesBounds(series: seq<ChartDataPoint>, lo: real, hi: real)
    requires forall i :: 0 <= i < |series| ==> lo <= series[i].fundingRate <= hi
    ensures (|series| as real) * lo <= SumRates(series) <= (|series| as real) * hi
  {
    if |series| > 0 {
      SumRatesBounds(series[..|series| - 1], lo, hi);
    }
  }

  /** The mean rate lies between the smallest and the largest rate of the series. */
  lemma AvgRateWithinBounds(series: seq<ChartDataPoint>, lo: real, hi: real)
    requires |series| > 0
    requires forall i :: 0 <= i < |series| ==> lo <= series[i].fundingRate <= hi
    ensures lo <= AvgRate(series) <= hi
  {
    SumRatesBounds(series, lo, hi);
    var n := |series| as real;
    var avg := AvgRate(series);
    assert avg * n >= lo * n;
    assert avg * n <= hi * n;
  }
}
