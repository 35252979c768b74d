# Funding-rate time-series engine

This is a Dafny model of the computational core of a funding-rate dashboard for perpetual futures. The core covers:

- the funding-rate series the page builds from exchange records: query windows, chart points, the ascending sort of the all-history series, the mean rate, and the choice of the series passed to the calculator;
- the temporal aligner, which prices every funding event with a candle. It rounds candle close times to the eight-hour funding interval, and when the bucket lookup misses it falls back to the nearest candle;
- the funding calculator. It replays the funding events from a start timestamp on a long or short position and derives the totals, the cumulative income series, the mean rate, the return and the annualized return;
- the token bar: the listed symbols, the selection, and the add, select and remove handlers, together with the symbol entry that normalizes the typed text.

Modules:

- `Types`: the records of `lib/types.ts`, with numeric strings already parsed.
- `RateSeries`: helpers of `app/page.tsx` and the in-place stable sort.
- `PriceAlignment`: `transformKlineData`.
- `FundingCalculator`: `components/FundingCalculator.tsx`.
- `TokenList`: the page's token state, as the class `TokenBar`.
- `TokenSelector`: the entry's `handleAddToken`.
- `Wrappers`: `Option` and `Result`.

Three points of the code's behaviour that the model keeps as written:

- With no funding events, the price series is placed on each candle's open time; close times are used only for the bucket lookup and the fallback (app/page.tsx:58-65).
- Buckets are always eight hours wide. Candles closing at 100, 500 and 900 ms all share bucket 0, and an event at 480 ms rounds to that bucket too. The lookup therefore hits and returns the last candle stored there, the one closing at 900, not the nearest one at 500 (`PriceAlignment.SmallOffsetsShareOneBucket`).
- No input is rejected as malformed. The calculator's amount and leverage go through `parseFloat(...) || default` (components/FundingCalculator.tsx:51-52), so NaN becomes the default; the model takes them as `Option<real>`, where `None` stands for NaN. The exchange's rate and price strings go through a plain `parseFloat` (app/page.tsx:51, 61-64), so a malformed string would become NaN and spread into every sum built from it; the model takes these numbers as already parsed reals and cannot represent NaN.

## Model

| member | source | states |
|---|---|---|
| RateSeries.GetTimeRange | app/page.tsx:23-35 | the window ends at `now`; `24h`, `7d`, `30d` and `90d` start 1, 7, 30 and 90 days earlier; any other name falls back to 7 days; every window spans between 1 and 90 days |
| RateSeries.TransformFundingRateData | app/page.tsx:47-54 | one chart point per record, in record order: the record's time, parsed rate and formatted label, and the percentage as four-decimal text with `%` |
| RateSeries.SinkIntoPlace | app/page.tsx:173 | one insertion pass: afterwards the first `i + 1` elements are ascending by funding time, records with equal times keep their order, and everything after `i` is untouched |
| RateSeries.SortByFundingTime | app/page.tsx:173 | after the in-place sort the array is ascending by funding time, is a permutation of the old contents, and keeps records with equal times in their old order (stable) |
| RateSeries.SameTiesSameMultiset | app/page.tsx:173 | two sequences with the same records at each funding time, in the same order, hold the same multiset: stability implies permutation |
| RateSeries.TransformKeepsAscending | app/page.tsx:173-174 | converting an ascending record list gives a time-ascending chart series |
| RateSeries.AllHistorySeries | app/page.tsx:171-174 | the all-history series is the conversion of the sorted records and is ascending by time; the array keeps its contents as a multiset, and records with equal funding times keep their order |
| RateSeries.CalculatorInput | app/page.tsx:340 | the calculator gets the all-history series when it is non-empty, otherwise the windowed one; the result is empty exactly when both are |
| RateSeries.SumRatesAppend | app/page.tsx:249 | the left-to-right `reduce` sum over a concatenation is the sum of the two parts' sums |
| RateSeries.SumRatesBounds | app/page.tsx:249 | with every rate between `lo` and `hi`, the sum lies between `n × lo` and `n × hi` |
| RateSeries.AvgRate | app/page.tsx:248-250 | the mean rate is 0 for an empty series; otherwise it times the length equals the sum of the rates |
| RateSeries.AvgRateWithinBounds | app/page.tsx:248-250 | the mean of a non-empty series lies between any lower and upper bound of its rates |
| PriceAlignment.RoundToFundingPeriod | app/page.tsx:70 | the bucket is a multiple of eight hours and lies within half a period of the time (halfway rounds up) |
| PriceAlignment.RoundMatchesMathRound | app/page.tsx:70 | the integer quotient used is exactly `Math.round(t / P)` on the real quotient |
| PriceAlignment.BucketMap | app/page.tsx:68-72 | every candle's rounded close time is a key; each key holds one of the candles, and that candle rounds to the key |
| PriceAlignment.LastInBucket | app/page.tsx:68-72 | the index found rounds to the key and no later candle does; there is none exactly when no candle rounds to the key |
| PriceAlignment.BucketMapKeepsLastCandle | app/page.tsx:68-72 | a key is in `klineMap` exactly when some candle rounds to it, and the map holds the last such candle (`Map.set` overwrites) |
| PriceAlignment.BuildBucketMap | app/page.tsx:68-72 | the `forEach` loop builds exactly that map |
| PriceAlignment.NearestIndex | app/page.tsx:89-97 | the fallback index has the minimum close-time distance, and every earlier candle is strictly farther (ties go to the first) |
| PriceAlignment.NearestIsUnique | app/page.tsx:89-97 | at most one index satisfies that criterion |
| PriceAlignment.ClosestCandle | app/page.tsx:89-97 | the scan with the strict `<` update ends on that nearest candle |
| PriceAlignment.MatchCandle | app/page.tsx:74-106 | the candle that prices an event is one of the candles, and it lies in the event's bucket unless no candle does |
| PriceAlignment.BucketHitUsesLastCandle | app/page.tsx:75-86 | on a bucket hit the event is priced with the last candle in the event's bucket |
| PriceAlignment.BucketMissUsesNearestCandle | app/page.tsx:89-106 | on a miss the event is priced with the nearest candle, the earliest on a tie |
| PriceAlignment.ExactCloseTimeIsBucketHit | app/page.tsx:68-86 | a candle that closes exactly at the event's time puts the event on the bucket path |
| PriceAlignment.CandlePoint | app/page.tsx:58-65 | a candle's price point sits on its open time and label and carries its close, open, high and low |
| PriceAlignment.AlignPrices | app/page.tsx:56-107 | with no funding events: one point per candle on its open time, with its prices. Otherwise one point per event, with the event's time and label and the prices of the matched candle. It fails exactly when there are events but no candles |
| PriceAlignment.TransformKlineData | app/page.tsx:56-107 | the method with the map-building loop and the fallback scan returns exactly `AlignPrices` |
| PriceAlignment.SmallOffsetsShareOneBucket | app/page.tsx:68-86 | candles at 100, 500 and 900 ms and an event at 480 ms: the bucket hit picks the candle at 900 |
| PriceAlignment.FallbackPicksNearestExample | app/page.tsx:89-106 | candles 0, 10 and 20 periods in, and an event 12 periods in: the candle at 10 is used |
| PriceAlignment.FallbackTieGoesToEarlierCandle | app/page.tsx:93 | two candles equally near a missed event: the earlier one is used |
| FundingCalculator.LeverageMultiplier | components/FundingCalculator.tsx:52 | the multiplier is never 0; it is the parsed leverage whenever that is a non-zero number |
| FundingCalculator.InvestmentAmount | components/FundingCalculator.tsx:51 | an unparsable amount counts as 0; a parsed amount is used as it is |
| FundingCalculator.PositionSize | components/FundingCalculator.tsx:50-54 | the position size is 0 exactly when the investment counts as 0; with a multiplier of 1 it is the investment itself |
| FundingCalculator.PositionSizeCases | components/FundingCalculator.tsx:50-54 | NaN investment gives size 0; NaN or zero leverage gives the investment; otherwise the size is investment × leverage |
| FundingCalculator.RelevantRates | components/FundingCalculator.tsx:71 | the filter never lengthens the series, and every point it keeps is at or after the start timestamp |
| FundingCalculator.RelevantRatesMembers | components/FundingCalculator.tsx:71 | the filter keeps exactly the points at or after the start timestamp |
| FundingCalculator.RelevantRatesAppend | components/FundingCalculator.tsx:71 | the filter keeps order: filtering a concatenation concatenates the filtered parts |
| FundingCalculator.RelevantRatesOfAscendingIsSuffix | components/FundingCalculator.tsx:71 | on an ascending series the kept points are a suffix of it |
| FundingCalculator.AccumulateIncome | components/FundingCalculator.tsx:112-135 | the `forEach` loop's totals and income points equal the total effective rate, the total income and the income series of the events |
| FundingCalculator.IncomeSeries | components/FundingCalculator.tsx:114-134 | one income point per event, each on its event's time and label |
| FundingCalculator.IncomeSeriesShape | components/FundingCalculator.tsx:116-134 | point `i` carries event `i`'s time and label, the event's income, and the income total over events `0..i` |
| FundingCalculator.CumulativeIsRunningSum | components/FundingCalculator.tsx:122-133 | each cumulative income is the sum of the incomes up to and including its own point |
| FundingCalculator.SumOfIncomesIsTotal | components/FundingCalculator.tsx:123-137 | the incomes of the series add up to the total income |
| FundingCalculator.TotalIncomeIsSizeTimesRate | components/FundingCalculator.tsx:119-123 | total income is position size × total effective rate |
| FundingCalculator.TotalRateSignFollowsPosition | components/FundingCalculator.tsx:117-120 | while every rate is non-negative, a short position's total effective rate is non-negative and a long one's non-positive |
| FundingCalculator.IncomeSignFollowsPosition | components/FundingCalculator.tsx:117-123 | while every rate is non-negative and the size is too, a short position receives funding overall and a long one pays it |
| FundingCalculator.TotalsFlipWithPosition | components/FundingCalculator.tsx:119 | short and long see opposite total effective rates and opposite total incomes |
| FundingCalculator.MeanRate | components/FundingCalculator.tsx:138 | the mean rate times the number of events is the total rate |
| FundingCalculator.ReturnPercent | components/FundingCalculator.tsx:139 | for a positive investment, return × investment = 100 × income; otherwise the return is 0 |
| FundingCalculator.ActualDays | components/FundingCalculator.tsx:142-144 | days × 86 400 000 is the span in milliseconds, and the span is positive exactly when the last event is later than the first |
| FundingCalculator.AnnualizedReturn | components/FundingCalculator.tsx:145 | over a positive span, annualized × days = 365 × return; otherwise the annualized return is 0 |
| FundingCalculator.ReturnPercentNegates | components/FundingCalculator.tsx:139 | negating the income negates the return percentage |
| FundingCalculator.AnnualizedReturnNegates | components/FundingCalculator.tsx:145 | negating the return negates the annualized return |
| FundingCalculator.MeanRateNegates | components/FundingCalculator.tsx:138 | negating the total negates the mean rate |
| FundingCalculator.Summary | components/FundingCalculator.tsx:137-166 | the stored statistics carry the position size, the available count, and one event and one used point per kept event |
| FundingCalculator.SummaryIncomeIsSizeTimesRate | components/FundingCalculator.tsx:119-159 | the stored total income is the stored position size × the stored total effective rate |
| FundingCalculator.Simulate | components/FundingCalculator.tsx:56-170 | the result carries the position size and the input length, with as many used points as income points. No kept event or a zero investment gives an all-zero result and no income points. Otherwise used = the number of kept events, and the income points are exactly the income series of the kept events |
| FundingCalculator.RunCalculation | components/FundingCalculator.tsx:56-170 | the method (filter, early return, loop, statistics) stores and emits exactly `Simulate` |
| FundingCalculator.FinalCumulativeIsTotal | components/FundingCalculator.tsx:137 | in a run with events, the last cumulative income is the stored total income, and the stored result is `Summary` of the kept events |
| FundingCalculator.SummaryFlipsWithPosition | components/FundingCalculator.tsx:119-145 | short and long over the same events have opposite totals, mean rate, return and annualized return |
| FundingCalculator.IncomesFlipWithPosition | components/FundingCalculator.tsx:119-122 | event by event, short income = −long income |
| FundingCalculator.SignSymmetry | components/FundingCalculator.tsx:56-170 | for identical inputs, the short and long runs report opposite totals, mean, returns and per-event incomes, with the same number of points |
| FundingCalculator.NoPositiveSpanNoAnnualizedReturn | components/FundingCalculator.tsx:142-145 | when the last kept event is not later than the first, the annualized return is 0 |
| FundingCalculator.NegativeInvestmentReturnsZeroPercent | components/FundingCalculator.tsx:139-145 | a negative investment gives 0 % return and 0 % annualized return |
| FundingCalculator.WorkedExample | components/FundingCalculator.tsx:112-145 | 0.01 % and −0.02 % eight hours apart, on a 1000 short: incomes 0.1, −0.2; cumulative 0.1, −0.1; return −0.01 %; annualized −10.95 % |
| TokenList.Without | app/page.tsx:227 | the filtered list is no longer than the original |
| TokenList.WithoutCounts | app/page.tsx:227 | every copy of the removed symbol is gone; every other symbol keeps its number of copies |
| TokenList.WithoutAppend | app/page.tsx:227 | the filter keeps order: filtering a concatenation concatenates the filtered parts |
| TokenList.WithoutAbsent | app/page.tsx:227 | removing a symbol that is not listed changes nothing |
| TokenList.WithoutAllCopies | app/page.tsx:227 | a list of nothing but copies of the symbol is emptied |
| TokenList.WithoutKeepsOthersInPlace | app/page.tsx:227 | every other symbol stays between what is left of the symbols before it and after it |
| TokenList.WithoutKeepsDistinct | app/page.tsx:227 | a list without duplicates stays without duplicates |
| TokenList.RemovalFromDistinctLeavesOne | app/page.tsx:227 | removing from two or more distinct symbols leaves at least one |
| TokenList.TokenBar.constructor | app/page.tsx:111-112 | initial state: the default list, with its first symbol selected |
| TokenList.TokenBar.SelectToken | app/page.tsx:275 | selection becomes the given symbol, and the list is unchanged |
| TokenList.TokenBar.AddToken | app/page.tsx:219-224 | the symbol is appended and selected; a new symbol keeps the list free of duplicates |
| TokenList.TokenBar.RemoveToken | app/page.tsx:226-233 | the list becomes the filtered list. A removed selection moves to the first remaining symbol, or to none when the list is empty. Other selections are kept. A duplicate-free list of two or more keeps a listed selection |
| TokenSelector.UpperAscii | components/TokenSelector.tsx:24 | upper-casing keeps the length; each lower-case letter becomes the capital at the same alphabet position; every other character keeps its position and value |
| TokenSelector.UpperAsciiIsUpper | components/TokenSelector.tsx:24 | the result has no lower-case letter; text without one is unchanged |
| TokenSelector.Trim | components/TokenSelector.tsx:24 | the result is a slice with only whitespace outside it, and it neither starts nor ends with whitespace |
| TokenSelector.TrimOfTrimmed | components/TokenSelector.tsx:24 | text without whitespace at either end is its own trim |
| TokenSelector.TrimKeepsNoLower | components/TokenSelector.tsx:24 | trimming text without a lower-case letter leaves none |
| TokenSelector.Normalize | components/TokenSelector.tsx:24 | the normalized text has no lower-case letter, no whitespace at either end, and is never longer than the typed text |
| TokenSelector.NormalizeIsIdempotent | components/TokenSelector.tsx:24 | normalizing twice equals normalizing once |
| TokenSelector.WithUsdtSuffix | components/TokenSelector.tsx:26 | the symbol ends in `USDT`; a suffixed text is kept; any other gains the suffix once |
| TokenSelector.WithUsdtSuffixIsIdempotent | components/TokenSelector.tsx:26 | suffixing twice equals suffixing once |
| TokenSelector.HandleAddToken | components/TokenSelector.tsx:23-30 | as written: nothing is emitted exactly when the normalized text is empty or listed as it stands; otherwise its suffixed form is emitted and the entry is cleared and closed; a refusal leaves the entry unchanged |
| TokenSelector.SuffixedSymbolShape | components/TokenSelector.tsx:26 | suffixing adds no lower-case letter and keeps the first character; text other than `USDT` becomes longer than the suffix |
| TokenSelector.EmittedSymbolIsWellFormed | components/TokenSelector.tsx:24-26 | an emitted symbol ends in `USDT`, has no lower-case letter and no leading whitespace, and is longer than `USDT` unless the text was `USDT` |
| TokenSelector.UnsuffixedCheckEmitsListedSymbol | components/TokenSelector.tsx:25-26 | with `BTCUSDT` listed, `btc` emits `BTCUSDT` again, and removing it from the doubled list leaves it empty |
| TokenSelector.HandleAddTokenChecked | components/TokenSelector.tsx:23-30 | corrected check: refuses empty text or a listed suffixed symbol, so an emitted symbol is never already listed |
| TokenSelector.CheckedAddKeepsDistinct | components/TokenSelector.tsx:25-26 | appending a symbol emitted by the corrected check keeps the list duplicate-free |
| TokenSelector.CheckedRefinesWritten | components/TokenSelector.tsx:25-26 | on a list of suffixed symbols, the corrected check refuses all the written one refuses; where it accepts, it behaves identically |
| TokenSelector.SubmitDraft | components/TokenSelector.tsx:23-30 | one Add press with the corrected check. It appends and selects the accepted symbol, leaves the bar unchanged on refusal, and keeps the list duplicate-free |

## Left out

- Fetching from the exchange API routes (`app/api/*`), request signing, credentials and the API-key form are I/O and out of scope. The model starts from records that have already been fetched.
- The refresh `setInterval`, React effects, memo dependencies and the order of asynchronous updates are left out. Each handler is modelled as one atomic state change.
- `localStorage` is left out: the write after add and remove, and the restore of the saved list and selection (app/page.tsx:123-136).
- `Date.now()` in `getTimeRange` and the local-midnight start timestamp of the calculator (FundingCalculator.tsx:61-68) are taken as integer parameters.
- `parseFloat` on the exchange's numeric strings is taken as already done. The user's amount and leverage are `Option<real>`, where `None` stands for NaN.
- `formatTime` and `toFixed(4)` are passed as function parameters: locale formatting is not modelled.
- Floating point is modelled with exact reals. IEEE-754 rounding of sums, products and quotients is not captured.
- The charts, the rendering and the `console.log` diagnostics are left out. So are the `latestRate`/`latestPrice` display values and the time-range selector.
- `fetchPriceData` catching the error thrown when there are events but no candles is left out. `PriceAlignment.AlignPrices` returns `Failure(NoCandleForFallback)` for that input.
- `toUpperCase` is modelled for ASCII letters only. Other scripts' case mappings (for example `ß` → `SS`) are not modelled.
- Lookups of JavaScript prototype keys (for example `"constructor"`) in the `ranges` table are not modelled. Every name outside the table falls back to seven days.
- The remove button only shows when two or more symbols are listed (TokenSelector.tsx:45). `TokenBar.RemoveToken` takes any symbol; its contracts state what happens in each case.
- FundingCalculator.TotalEffectiveRate: has no contract of its own. Its sign and its negation between positions are stated in `TotalRateSignFollowsPosition` and `TotalsFlipWithPosition`. As a postcondition, the sign fact would enter every proof about income products, and those proofs then run out of resource.
- FundingCalculator.TotalIncome: has no contract of its own. Its relation to the rates is stated in `TotalIncomeIsSizeTimesRate`, `IncomeSignFollowsPosition`, `SumOfIncomesIsTotal` and `TotalsFlipWithPosition`, for the same reason.
- RateSeries.SumRates: has no contract of its own. The sum's behaviour is stated in `SumRatesAppend` and `SumRatesBounds`.
- `RateSeries.RangeLength`, `RateSeries.ToChartPoint`, `PriceAlignment.FundingPricePoint`, `FundingCalculator.EffectiveRate` and `FundingCalculator.Income` carry no contract. Each is the per-element body of another member: `GetTimeRange`, `TransformFundingRateData`, `AlignPrices`, and `AccumulateIncome`/`IncomeSeries`. Those members' contracts state what the helpers compute.
- TokenList.Without: its own ensures only bounds the length. The filter's meaning (counts, order, absent symbols, all copies) is stated in the `TokenList.Without*` lemmas next to it.

## Findings

| source | as written | input that shows it | evidently intended | confidence | as-written member | corrected member |
|---|---|---|---|---|---|---|
| components/TokenSelector.tsx:25-26 | the duplicate check compares the normalized text before the `USDT` suffix is added | with `["BTCUSDT"]` listed, typing `btc` emits `BTCUSDT` again. The page appends it, and removing `BTCUSDT` then empties the list and leaves no selection (app/page.tsx:227-230) | check the symbol that will be emitted, i.e. the suffixed one | high; not executed | TokenSelector.UnsuffixedCheckEmitsListedSymbol | TokenSelector.HandleAddTokenChecked |
