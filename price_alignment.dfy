/**
 * `transformKlineData` (app/page.tsx): prices each funding event with a
 * candle. Candles are indexed by their close time rounded to the eight-hour
 * funding interval (a later candle replaces an earlier one in the same
 * bucket); a funding event whose rounded time finds no candle falls back to
 * the candle whose close time is nearest, the earliest one on a tie.
 */
module PriceAlignment {
  import opened Wrappers
  import opened Types

  /** The bucket width `8 * 60 * 60 * 1000`. */
  const FUNDING_PERIOD_MS: int := 8 * HOUR_MS
  const HALF_PERIOD_MS: int := FUNDING_PERIOD_MS / 2

  function Abs(x: int): nat
  {
    if x < 0 then -x else x
  }

  /**
   * `Math.round(t / P) * P` for an integer `t`: the multiple of the period
   * nearest to `t`, a time exactly halfway rounding up.
   */
  function RoundToFundingPeriod(t: int): (b: int)
    ensures b % FUNDING_PERIOD_MS == 0
    ensures b - HALF_PERIOD_MS <= t < b + HALF_PERIOD_MS
  {
    ((t + HALF_PERIOD_MS) / FUNDING_PERIOD_MS) * FUNDING_PERIOD_MS
  }

  /** JavaScript's `Math.round(x) == n`: `n` is the integer within one half of `x`, halves rounding up. */
  ghost predicate IsMathRound(x: real, n: int)
  {
    (n as real) - 0.5 <= x < (n as real) + 0.5
  }

  /** The integer quotient used by RoundToFundingPeriod is what `Math.round(t / P)` yields. */
  lemma RoundMatchesMathRound(t: int)
    ensures IsMathRound((t as real) / (FUNDING_PERIOD_MS as real), (t + HALF_PERIOD_MS) / FUNDING_PERIOD_MS)
  {
    var p := FUNDING_PERIOD_MS as real;
    var n := (t + HALF_PERIOD_MS) / FUNDING_PERIOD_MS;
    var x := (t as real) / p;
    assert n * FUNDING_PERIOD_MS - HALF_PERIOD_MS <= t < n * FUNDING_PERIOD_MS + HALF_PERIOD_MS;
    assert x * p == t as real;
    assert ((n as real) - 0.5) * p <= x * p;
    assert x * p < ((n as real) + 0.5) * p;
  }

  /** The key a candle is stored under. */
  function BucketKey(k: Kline): int
  {
    RoundToFundingPeriod(k.closeTime)
  }

  /** `klineMap` once `klines.forEach` has stored every candle under its key, later ones replacing earlier ones. */
  function BucketMap(klines: seq<Kline>): (m: map<int, Kline>)
    ensures forall key :: key in m ==> m[key] in klines && BucketKey(m[key]) == key
    ensures forall i :: 0 <= i < |klines| ==> BucketKey(klines[i]) in m
  {
    if |klines| == 0 then map[]
    else BucketMap(klines[..|klines| - 1])[BucketKey(klines[|klines| - 1]) := klines[|klines| - 1]]
  }

  /** The index of the last candle stored under `key`, if any. */
  function LastInBucket(klines: seq<Kline>, key: int): (j: Option<nat>)
    ensures j.Some? ==> j.value < |klines| && BucketKey(klines[j.value]) == key
    ensures j.Some? ==> forall k :: j.value < k < |klines| ==> BucketKey(klines[k]) != key
    ensures j.None? <==> forall k :: 0 <= k < |klines| ==> BucketKey(klines[k]) != key
  {
    if |klines| == 0 then None
    else if BucketKey(klines[|klines| - 1]) == key then Some(|klines| - 1)
    else LastInBucket(klines[..|klines| - 1], key)
  }

  /** A key is in the map exactly when some candle rounds to it, and it holds the last such candle. */
  lemma {:induction false} BucketMapKeepsLastCandle(klines: seq<Kline>, key: int)
    ensures key in BucketMap(klines) <==> LastInBucket(klines, key).Some?
    ensures key in BucketMap(klines) ==> BucketMap(klines)[key] == klines[LastInBucket(klines, key).value]
  {
    if |klines| > 0 {
      BucketMapKeepsLastCandle(klines[..|klines| - 1], key);
    }
  }

  function Distance(k: Kline, t: int): nat
  {
    Abs(k.closeTime - t)
  }

  /** `klines[i]` has the smallest distance to `t`, and every earlier candle is strictly farther. */
  ghost predicate IsNearest(klines: seq<Kline>, t: int, i: int)
  {
    && 0 <= i < |klines|
    && (forall j :: 0 <= j < |klines| ==> Distance(klines[i], t) <= Distance(klines[j], t))
    && (forall j :: 0 <= j < i ==> Distance(klines[i], t) < Distance(klines[j], t))
  }

  /** The index the fallback scan ends on. */
  function NearestIndex(klines: seq<Kline>, t: int): (i: nat)
    requires |klines| > 0
    ensures IsNearest(klines, t, i)
  {
    if |klines| == 1 then 0
    else
      var best := NearestIndex(klines[..|klines| - 1], t);
      if Distance(klines[|klines| - 1], t) < Distance(klines[best], t) then |klines| - 1 else best
  }

  /** At most one index is nearest in this sense: the tie-break leaves no choice. */
  lemma NearestIsUnique(klines: seq<Kline>, t: int, i: int, j: int)
    requires IsNearest(klines, t, i) && IsNearest(klines, t, j)
    ensures i == j
  {
    var di, dj := Distance(klines[i], t), Distance(klines[j], t);
    assert i < j ==> dj < di;
    assert j < i ==> di < dj;
  }

  /** The candle a funding event at time `t` is priced with. */
  function MatchCandle(klines: seq<Kline>, t: int): (k: Kline)
    requires |klines| > 0
    ensures k in klines
    ensures BucketKey(k) == RoundToFundingPeriod(t)
            || forall j :: 0 <= j < |klines| ==> BucketKey(klines[j]) != RoundToFundingPeriod(t)
  {
    var m := BucketMap(klines);
    var key := RoundToFundingPeriod(t);
    if key in m then m[key] else klines[NearestIndex(klines, t)]
  }

  /** A bucket hit prices the event with the last candle in the event's bucket. */
  lemma BucketHitUsesLastCandle(klines: seq<Kline>, t: int, j: int)
    requires 0 <= j < |klines| && BucketKey(klines[j]) == RoundToFundingPeriod(t)
    requires forall k :: j < k < |klines| ==> BucketKey(klines[k]) != RoundToFundingPeriod(t)
    ensures MatchCandle(klines, t) == klines[j]
  {
    BucketMapKeepsLastCandle(klines, RoundToFundingPeriod(t));
  }

  /** On a bucket miss the event is priced with the nearest candle, the earliest among equally near ones. */
  lemma BucketMissUsesNearestCandle(klines: seq<Kline>, t: int, i: int)
    requires forall k :: 0 <= k < |klines| ==> BucketKey(klines[k]) != RoundToFundingPeriod(t)
    requires IsNearest(klines, t, i)
    ensures MatchCandle(klines, t) == klines[i]
  {
    BucketMapKeepsLastCandle(klines, RoundToFundingPeriod(t));
    NearestIsUnique(klines, t, i, NearestIndex(klines, t));
  }

  /** A candle closing exactly at the event's time puts the event on the bucket path, never the fallback. */
  lemma ExactCloseTimeIsBucketHit(klines: seq<Kline>, t: int, j: int)
    requires 0 <= j < |klines| && klines[j].closeTime == t
    ensures RoundToFundingPeriod(t) in BucketMap(klines)
    ensures MatchCandle(klines, t) == BucketMap(klines)[RoundToFundingPeriod(t)]
  {
    BucketMapKeepsLastCandle(klines, RoundToFundingPeriod(t));
  }

  /** Reading `klines[0].closeTime` with no candles throws; the caller then shows no prices. */
  datatype AlignError = NoCandleForFallback

  /** A candle as a price point on its own open time (used when there are no funding events). */
  function CandlePoint(k: Kline, formatTime: int -> string): (p: PriceDataPoint)
    ensures p.time == k.openTime && p.formattedTime == formatTime(k.openTime)
    ensures p.price == k.close && p.open == k.open && p.high == k.high && p.low == k.low
  {
    PriceDataPoint(k.openTime, formatTime(k.openTime), k.close, k.open, k.high, k.low)
  }

  /** A funding event priced with candle `k`. */
  function FundingPricePoint(fr: ChartDataPoint, k: Kline): PriceDataPoint
  {
    PriceDataPoint(fr.time, fr.formattedTime, k.close, k.open, k.high, k.low)
  }

  /** What `transformKlineData` returns, or the error it throws. */
  function AlignPrices(klines: seq<Kline>, funding: seq<ChartDataPoint>, formatTime: int -> string)
    : (r: Result<seq<PriceDataPoint>, AlignError>)
    ensures r.Failure? <==> |funding| > 0 && |klines| == 0
    ensures |funding| == 0 ==> r.Success? && |r.value| == |klines|
    ensures |funding| == 0 ==>
              forall i :: 0 <= i < |klines| ==>
                && r.value[i].time == klines[i].openTime
                && r.value[i].formattedTime == formatTime(klines[i].openTime)
                && r.value[i].price == klines[i].close
                && r.value[i].open == klines[i].open
                && r.value[i].high == klines[i].high
                && r.value[i].low == klines[i].low
    ensures |funding| > 0 && r.Success? ==> |r.value| == |funding|
    ensures |funding| > 0 && r.Success? ==>
              forall i :: 0 <= i < |funding| ==>
                && r.value[i].time == funding[i].time
                && r.value[i].formattedTime == funding[i].formattedTime
                && r.value[i].price == MatchCandle(klines, funding[i].time).close
                && r.value[i].open == MatchCandle(klines, funding[i].time).open
                && r.value[i].high == MatchCandle(klines, funding[i].time).high
                && r.value[i].low == MatchCandle(klines, funding[i].time).low
  {
    if |funding| == 0 then
      Success(seq(|klines|, i requires 0 <= i < |klines| => CandlePoint(klines[i], formatTime)))
    else if |klines| == 0 then
      Failure(NoCandleForFallback)
    else
      Success(seq(|funding|, i requires 0 <= i < |funding| =>
                    FundingPricePoint(funding[i], MatchCandle(klines, funding[i].time))))
  }

  /** The `forEach` that fills `klineMap`. */
  method BuildBucketMap(klines: seq<Kline>) returns (klineMap: map<int, Kline>)
    ensures klineMap == BucketMap(klines)
  {
    klineMap := map[];
    for i := 0 to |klines|
      invariant klineMap == BucketMap(klines[..i])
    {
      assert klines[..i + 1][..i] == klines[..i];
      klineMap := klineMap[RoundToFundingPeriod(klines[i].closeTime) := klines[i]];
    }
    assert klines[..|klines|] == klines;
  }

  /** The fallback scan: `closestKline` and `minDiff`, updated only on a strictly smaller difference. */
  method ClosestCandle(klines: seq<Kline>, t: int) returns (closest: nat)
    requires |klines| > 0
    ensures IsNearest(klines, t, closest)
  {
    closest := 0;
    var minDiff := Abs(klines[0].closeTime - t);
    for i := 0 to |klines|
      invariant closest < |klines| && closest <= i
      invariant minDiff == Distance(klines[closest], t)
      invariant forall j :: 0 <= j < i ==> minDiff <= Distance(klines[j], t)
      invariant forall j :: 0 <= j < closest ==> minDiff < Distance(klines[j], t)
    {
      var diff := Abs(klines[i].closeTime - t);
      if diff < minDiff {
        minDiff := diff;
        closest := i;
      }
    }
  }

  /**
   * `transformKlineData`: with no funding events, one point per candle on its
   * open time; otherwise one point per funding event, priced by bucket lookup
   * or by the fallback scan.
   */
  method TransformKlineData(klines: seq<Kline>, fundingRateData: seq<ChartDataPoint>, formatTime: int -> string)
    returns (r: Result<seq<PriceDataPoint>, AlignError>)
    ensures r == AlignPrices(klines, fundingRateData, formatTime)
  {
    if |fundingRateData| == 0 {
      return Success(seq(|klines|, i requires 0 <= i < |klines| => CandlePoint(klines[i], formatTime)));
    }
    var klineMap := BuildBucketMap(klines);
    var points: seq<PriceDataPoint> := [];
    for i := 0 to |fundingRateData|
      invariant |points| == i
      invariant i > 0 ==> |klines| > 0
      invariant forall j :: 0 <= j < i ==>
                  (|klines| > 0 && points[j] == FundingPricePoint(fundingRateData[j], MatchCandle(klines, fundingRateData[j].time)))
    {
      var fr := fundingRateData[i];
      var roundedFundingTime := RoundToFundingPeriod(fr.time);
      if roundedFundingTime in klineMap {
        BucketMapKeepsLastCandle(klines, roundedFundingTime);
        points := points + [FundingPricePoint(fr, klineMap[roundedFundingTime])];
      } else {
        if |klines| == 0 {
          return Failure(NoCandleForFallback);
        }
        var closest := ClosestCandle(klines, fr.time);
        NearestIsUnique(klines, fr.time, closest, NearestIndex(klines, fr.time));
        points := points + [FundingPricePoint(fr, klines[closest])];
      }
    }
    assert points == AlignPrices(klines, fundingRateData, formatTime).value;
    return Success(points);
  }

  /** A candle with the given close time and a flat price. */
  function FlatCandle(closeTime: int, price: real): Kline
  {
    Kline(closeTime, price, price, price, price, 0.0, closeTime)
  }

  /**
   * Close times 100, 500 and 900 ms all round to bucket 0 under the fixed
   * eight-hour period, as does an event at 480 ms: the bucket holds the
   * candle closing at 900, and that candle is used, not the nearest one.
   */
  lemma SmallOffsetsShareOneBucket()
    ensures MatchCandle([FlatCandle(100, 1.0), FlatCandle(500, 2.0), FlatCandle(900, 3.0)], 480).close == 3.0
  {
    var klines := [FlatCandle(100, 1.0), FlatCandle(500, 2.0), FlatCandle(900, 3.0)];
    BucketHitUsesLastCandle(klines, 480, 2);
  }

  /** Candles closing 0, 10 and 20 periods in; an event 12 periods in misses and takes the candle at 10. */
  lemma FallbackPicksNearestExample()
    ensures MatchCandle([FlatCandle(0, 1.0), FlatCandle(10 * FUNDING_PERIOD_MS, 2.0), FlatCandle(20 * FUNDING_PERIOD_MS, 3.0)],
                        12 * FUNDING_PERIOD_MS).close == 2.0
  {
    var klines := [FlatCandle(0, 1.0), FlatCandle(10 * FUNDING_PERIOD_MS, 2.0), FlatCandle(20 * FUNDING_PERIOD_MS, 3.0)];
    var t := 12 * FUNDING_PERIOD_MS;
    assert RoundToFundingPeriod(t) == t;
    BucketMissUsesNearestCandle(klines, t, 1);
  }

  /** Candles closing 10 and 14 periods in are equally near an event 12 periods in: the earlier one is used. */
  lemma FallbackTieGoesToEarlierCandle()
    ensures MatchCandle([FlatCandle(10 * FUNDING_PERIOD_MS, 1.0), FlatCandle(14 * FUNDING_PERIOD_MS, 2.0)],
                        12 * FUNDING_PERIOD_MS).close == 1.0
  {
    var klines := [FlatCandle(10 * FUNDING_PERIOD_MS, 1.0), FlatCandle(14 * FUNDING_PERIOD_MS, 2.0)];
    var t := 12 * FUNDING_PERIOD_MS;
    assert RoundToFundingPeriod(t) == t;
    BucketMissUsesNearestCandle(klines, t, 0);
  }
}
