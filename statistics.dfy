/**
 * Rolling statistics over a symbol's price history and the all-time record
 * tracker: mean, sample standard deviation, the z-score anomaly test, the
 * all-time high/low update and the trailing time-window filter.
 *
 * Prices and timestamps are `real`. Python's `statistics.mean` and
 * `statistics.stdev` sum exactly before rounding once, so exact reals are close
 * to what they compute; the square root is a parameter satisfying `IsSqrt`.
 */
module Statistics {
  import opened Wrappers

  /** One history record: `{'price': ..., 'timestamp': ...}`. */
  datatype Entry = Entry(price: real, timestamp: real)

  /** What `get_price_statistics` returns. */
  datatype PriceStats = PriceStats(mean: real, stdDev: real, min: real, max: real, count: nat)

  /** What `check_anomaly` returns: `(is_anomaly, z_score)`. */
  datatype Anomaly = Anomaly(isAnomaly: bool, zScore: real)

  function Abs(x: real): real {
    if x < 0.0 then -x else x
  }

  function Sum(xs: seq<real>): real {
    if xs == [] then 0.0 else xs[0] + Sum(xs[1..])
  }

  /** `[h['price'] for h in history]`. */
  function Prices(history: seq<Entry>): (ps: seq<real>)
    ensures |ps| == |history|
    ensures forall i :: 0 <= i < |history| ==> ps[i] == history[i].price
  {
    if history == [] then [] else [history[0].price] + Prices(history[1..])
  }

  /** `min(xs)`. */
  function MinOf(xs: seq<real>): (m: real)
    requires xs != []
    ensures forall i :: 0 <= i < |xs| ==> m <= xs[i]
  {
    if |xs| == 1 then xs[0]
    else
      var rest := MinOf(xs[1..]);
      if xs[0] <= rest then xs[0] else rest
  }

  /** `max(xs)`. */
  function MaxOf(xs: seq<real>): (m: real)
    requires xs != []
    ensures forall i :: 0 <= i < |xs| ==> xs[i] <= m
  {
    if |xs| == 1 then xs[0]
    else
      var rest := MaxOf(xs[1..]);
      if xs[0] >= rest then xs[0] else rest
  }

  /** The minimum is one of the prices. */
  lemma {:induction false} MinOfIsPrice(xs: seq<real>)
    requires xs != []
    ensures MinOf(xs) in xs
  {
    if |xs| > 1 {
      MinOfIsPrice(xs[1..]);
    }
  }

  /** The maximum is one of the prices. */
  lemma {:induction false} MaxOfIsPrice(xs: seq<real>)
    requires xs != []
    ensures MaxOf(xs) in xs
  {
    if |xs| > 1 {
      MaxOfIsPrice(xs[1..]);
    }
  }

  /** All prices are the same. */
  predicate Flat(xs: seq<real>) {
    forall i, j :: 0 <= i < |xs| && 0 <= j < |xs| ==> xs[i] == xs[j]
  }

  lemma {:induction false} SumAtLeast(xs: seq<real>, c: real)
    requires forall i :: 0 <= i < |xs| ==> c <= xs[i]
    ensures (|xs| as real) * c <= Sum(xs)
  {
    if xs != [] {
      SumAtLeast(xs[1..], c);
    }
  }

  lemma {:induction false} SumAtMost(xs: seq<real>, c: real)
    requires forall i :: 0 <= i < |xs| ==> xs[i] <= c
    ensures Sum(xs) <= (|xs| as real) * c
  {
    if xs != [] {
      SumAtMost(xs[1..], c);
    }
  }

  lemma QuotientBetween(s: real, n: real, lo: real, hi: real)
    requires n > 0.0 && n * lo <= s <= n * hi
    ensures lo <= s / n <= hi
  {
  }

  /** The mean lies between the least and the greatest price. */
  lemma MeanBetweenExtremes(prices: seq<real>)
    requires prices != []
    ensures MinOf(prices) <= Sum(prices) / (|prices| as real) <= MaxOf(prices)
  {
    SumAtLeast(prices, MinOf(prices));
    SumAtMost(prices, MaxOf(prices));
    QuotientBetween(Sum(prices), |prices| as real, MinOf(prices), MaxOf(prices));
  }

  /** `calculate_moving_average`: 0.0 for no prices, otherwise the arithmetic mean. */
  function CalculateMovingAverage(prices: seq<real>): (r: real)
    ensures prices == [] ==> r == 0.0
    ensures prices != [] ==> r * (|prices| as real) == Sum(prices)
    ensures prices != [] ==> MinOf(prices) <= r <= MaxOf(prices)
  {
    if prices == [] then 0.0
    else
      MeanBetweenExtremes(prices);
      Sum(prices) / (|prices| as real)
  }

  lemma MulPositive(a: real, b: real)
    requires a > 0.0 && b > 0.0
    ensures a * b > 0.0
  {
  }

  lemma SquareNonNegative(d: real)
    ensures d * d >= 0.0
  {
    if d > 0.0 {
      MulPositive(d, d);
    } else if d < 0.0 {
      MulPositive(-d, -d);
      assert (-d) * (-d) == d * d;
    }
  }

  /** The sum of squared deviations from `m`. */
  function SquaredDeviations(xs: seq<real>, m: real): (r: real)
    ensures r >= 0.0
  {
    if xs == [] then 0.0
    else
      SquareNonNegative(xs[0] - m);
      (xs[0] - m) * (xs[0] - m) + SquaredDeviations(xs[1..], m)
  }

  /** The sample variance (denominator n - 1), which `statistics.stdev` takes the root of. */
  function SampleVariance(xs: seq<real>): (v: real)
    requires |xs| >= 2
    ensures v >= 0.0
  {
    SquaredDeviations(xs, CalculateMovingAverage(xs)) / ((|xs| - 1) as real)
  }

  /** `sqrt` is the non-negative square root on the non-negative reals. */
  ghost predicate IsSqrt(sqrt: real -> real) {
    && sqrt(0.0) == 0.0
    && forall x :: 0.0 <= x ==> 0.0 <= sqrt(x) && sqrt(x) * sqrt(x) == x
  }

  lemma {:induction false} SquaredDeviationsOfConstant(xs: seq<real>, m: real)
    requires forall i :: 0 <= i < |xs| ==> xs[i] == m
    ensures SquaredDeviations(xs, m) == 0.0
  {
    if xs != [] {
      SquaredDeviationsOfConstant(xs[1..], m);
    }
  }

  lemma {:induction false} SumFlat(xs: seq<real>, c: real)
    requires forall i :: 0 <= i < |xs| ==> xs[i] == c
    ensures Sum(xs) == (|xs| as real) * c
  {
    if xs != [] {
      SumFlat(xs[1..], c);
    }
  }

  /** A series whose prices are all equal has zero sample variance. */
  lemma FlatVarianceZero(xs: seq<real>)
    requires |xs| >= 2 && Flat(xs)
    ensures SampleVariance(xs) == 0.0
  {
    var m := CalculateMovingAverage(xs);
    SumFlat(xs, xs[0]);
    assert m * (|xs| as real) == (|xs| as real) * xs[0];
    assert m == xs[0];
    SquaredDeviationsOfConstant(xs, m);
  }

  /** `calculate_std_deviation`: 0.0 below two prices, otherwise the sample standard deviation. */
  function CalculateStdDeviation(prices: seq<real>, sqrt: real -> real): (r: real)
    requires IsSqrt(sqrt)
    ensures r >= 0.0
    ensures |prices| < 2 ==> r == 0.0
    ensures |prices| >= 2 ==> r * r == SampleVariance(prices)
    ensures Flat(prices) ==> r == 0.0
  {
    if |prices| < 2 then 0.0
    else
      var v := SampleVariance(prices);
      assert Flat(prices) ==> v == 0.0 by {
        if Flat(prices) {
          FlatVarianceZero(prices);
        }
      }
      sqrt(v)
  }

  /** `get_price_statistics`: mean, sample standard deviation, min, max and count. */
  function GetPriceStatistics(history: seq<Entry>, sqrt: real -> real): (st: PriceStats)
    requires IsSqrt(sqrt)
    ensures history == [] ==> st == PriceStats(0.0, 0.0, 0.0, 0.0, 0)
    ensures st.count == |history| && st.stdDev >= 0.0
    ensures history != [] ==> st.min <= st.mean <= st.max
    ensures forall i :: 0 <= i < |history| ==> st.min <= history[i].price <= st.max
    ensures Flat(Prices(history)) ==> st.stdDev == 0.0
  {
    if history == [] then PriceStats(0.0, 0.0, 0.0, 0.0, 0)
    else
      var prices := Prices(history);
      PriceStats(CalculateMovingAverage(prices), CalculateStdDeviation(prices, sqrt),
                 MinOf(prices), MaxOf(prices), |prices|)
  }

  /** The reported mean is the sum of the prices divided by the number of entries. */
  lemma PriceStatisticsMean(history: seq<Entry>, sqrt: real -> real)
    requires IsSqrt(sqrt) && history != []
    ensures GetPriceStatistics(history, sqrt).mean == Sum(Prices(history)) / (|history| as real)
  {
    assert |Prices(history)| == |history|;
  }

  /**
   * The reported deviation is 0.0 below two entries, and otherwise the sample
   * standard deviation of the prices, whose square `CalculateStdDeviation`
   * states to be their sample variance.
   */
  lemma PriceStatisticsDeviation(history: seq<Entry>, sqrt: real -> real)
    requires IsSqrt(sqrt)
    ensures |history| < 2 ==> GetPriceStatistics(history, sqrt).stdDev == 0.0
    ensures |history| >= 2 ==> GetPriceStatistics(history, sqrt).stdDev == CalculateStdDeviation(Prices(history), sqrt)
  {
    assert |Prices(history)| == |history|;
  }

  /** The reported minimum and maximum are prices that occur in the history. */
  lemma PriceStatisticsExtremesOccur(history: seq<Entry>, sqrt: real -> real)
    requires IsSqrt(sqrt) && history != []
    ensures var st := GetPriceStatistics(history, sqrt);
      st.min in Prices(history) && st.max in Prices(history)
  {
    MinOfIsPrice(Prices(history));
    MaxOfIsPrice(Prices(history));
  }

  /** `check_anomaly`: the z-score test, with a zero standard deviation never anomalous. */
  function CheckAnomaly(currentPrice: real, mean: real, stdDev: real, threshold: real): (r: Anomaly)
    ensures stdDev == 0.0 ==> r == Anomaly(false, 0.0)
    ensures stdDev != 0.0 ==> r.zScore * stdDev == currentPrice - mean
    ensures stdDev != 0.0 ==> (r.isAnomaly <==> Abs(r.zScore) >= threshold)
  {
    if stdDev == 0.0 then Anomaly(false, 0.0)
    else
      var z := (currentPrice - mean) / stdDev;
      Anomaly(Abs(z) >= threshold, z)
  }

  /** The anomaly test is the band test: the price lies `threshold` deviations or more from the mean. */
  lemma AnomalyIsOutsideBand(currentPrice: real, mean: real, stdDev: real, threshold: real)
    requires stdDev != 0.0
    ensures CheckAnomaly(currentPrice, mean, stdDev, threshold).isAnomaly
        <==> Abs(currentPrice - mean) >= threshold * Abs(stdDev)
  {
    var z := CheckAnomaly(currentPrice, mean, stdDev, threshold).zScore;
    var d := currentPrice - mean;
    assert d == z * stdDev;
    assert Abs(d) == Abs(z) * Abs(stdDev);
    if Abs(z) >= threshold {
      assert Abs(z) * Abs(stdDev) >= threshold * Abs(stdDev);
    } else {
      assert Abs(z) * Abs(stdDev) < threshold * Abs(stdDev);
    }
  }

  /** A history whose prices are all equal never makes the current price an anomaly. */
  lemma FlatHistoryNeverAnomalous(history: seq<Entry>, sqrt: real -> real, currentPrice: real, threshold: real)
    requires IsSqrt(sqrt)
    requires Flat(Prices(history))
    ensures var st := GetPriceStatistics(history, sqrt);
      CheckAnomaly(currentPrice, st.mean, st.stdDev, threshold) == Anomaly(false, 0.0)
  {
  }

  /** Two worked cases: mean 100, deviation 10, threshold 2. */
  lemma AnomalyExamples()
    ensures CheckAnomaly(121.0, 100.0, 10.0, 2.0) == Anomaly(true, 2.1)
    ensures CheckAnomaly(115.0, 100.0, 10.0, 2.0) == Anomaly(false, 1.5)
  {
  }

  // ---------------------------------------------------------------- records

  /** A stored all-time low: a price, or the `float('inf')` sentinel (also what a missing key reads as). */
  datatype Level = Finite(value: real) | Infinity

  /** `a <= b` on levels, with `Infinity` above every price. */
  predicate AtMost(a: Level, b: Level) {
    b == Infinity || (a.Finite? && a.value <= b.value)
  }

  /** The two record keys of a stats dict; a missing `all_time_high` is `None`. */
  datatype Records = Records(high: Option<real>, low: Level)

  /** `stats.get('all_time_high', 0.0)`. */
  function HighOf(r: Records): real {
    r.high.GetOr(0.0)
  }

  datatype RecordOutcome = RecordOutcome(stats: Records, isNewHigh: bool, isNewLow: bool)

  /** What `update_records` does to the two record keys, and the two flags it returns. */
  function RecordUpdate(rec: Records, price: real): (out: RecordOutcome)
    ensures out.isNewHigh <==> price > HighOf(rec)
    ensures out.stats.high == (if out.isNewHigh then Some(price) else rec.high)
    ensures out.isNewLow <==> rec.low.Finite? && price < rec.low.value
    ensures rec.low == Infinity ==> out.stats.low == Finite(price) && !out.isNewLow
    ensures rec.low.Finite? && !out.isNewLow ==> out.stats.low == rec.low
    ensures out.isNewLow ==> out.stats.low == Finite(price)
    ensures HighOf(rec) <= HighOf(out.stats) && price <= HighOf(out.stats)
    ensures AtMost(out.stats.low, rec.low) && AtMost(out.stats.low, Finite(price))
  {
    var allTimeHigh := HighOf(rec);
    var isNewHigh := price > allTimeHigh;
    var isNewLow := rec.low.Finite? && price < rec.low.value;
    var high := if isNewHigh then Some(price) else rec.high;
    var low := if isNewLow || rec.low == Infinity then Finite(price) else rec.low;
    RecordOutcome(Records(high, low), isNewHigh, isNewLow)
  }

  /** Applying the same price twice reports nothing new the second time and changes nothing more. */
  lemma RecordUpdateIdempotent(rec: Records, price: real)
    ensures var once := RecordUpdate(rec, price);
      var twice := RecordUpdate(once.stats, price);
      !twice.isNewHigh && !twice.isNewLow && twice.stats == once.stats
  {
  }

  /** The stats dict `update_records` mutates in place. */
  class RecordStats {
    var high: Option<real>
    var low: Level

    function View(): Records
      reads this
    {
      Records(high, low)
    }

    constructor (initial: Records)
      ensures View() == initial
    {
      high := initial.high;
      low := initial.low;
    }
  }

  /** `update_records`: rewrites the record keys of `stats` in place and returns the same object. */
  method UpdateRecords(stats: RecordStats, currentPrice: real) returns (updated: RecordStats, isNewHigh: bool, isNewLow: bool)
    modifies stats
    ensures updated == stats
    ensures RecordOutcome(stats.View(), isNewHigh, isNewLow) == RecordUpdate(old(stats.View()), currentPrice)
  {
    var allTimeHigh := stats.high.GetOr(0.0);
    var allTimeLow := stats.low;
    isNewHigh := currentPrice > allTimeHigh;
    isNewLow := allTimeLow.Finite? && currentPrice < allTimeLow.value;
    if isNewHigh {
      stats.high := Some(currentPrice);
    }
    if isNewLow || allTimeLow == Infinity {
      stats.low := Finite(currentPrice);
    }
    updated := stats;
  }

  // ---------------------------------------------------------------- time window

  /** `max(h['timestamp'] for h in history)`. */
  function LatestTimestamp(history: seq<Entry>): (t: real)
    requires history != []
    ensures exists i :: 0 <= i < |history| && history[i].timestamp == t
    ensures forall i :: 0 <= i < |history| ==> history[i].timestamp <= t
  {
    if |history| == 1 then history[0].timestamp
    else
      var rest := LatestTimestamp(history[1..]);
      assert exists i :: 1 <= i < |history| && history[i].timestamp == rest by {
        var j :| 0 <= j < |history[1..]| && history[1..][j].timestamp == rest;
        assert history[j + 1].timestamp == rest;
      }
      if history[0].timestamp >= rest then history[0].timestamp else rest
  }

  /** `[h for h in history if h['timestamp'] >= cutoff]`. */
  function KeepSince(history: seq<Entry>, cutoff: real): (r: seq<Entry>)
    ensures |r| <= |history|
    ensures forall i :: 0 <= i < |r| ==> r[i].timestamp >= cutoff
  {
    if history == [] then []
    else
      var rest := KeepSince(history[1..], cutoff);
      if history[0].timestamp >= cutoff then [history[0]] + rest else rest
  }

  /** The filter keeps exactly the entries at or after the cut-off. */
  lemma {:induction false} KeepSinceMembers(history: seq<Entry>, cutoff: real, e: Entry)
    ensures e in KeepSince(history, cutoff) <==> e in history && e.timestamp >= cutoff
  {
    if history != [] {
      KeepSinceMembers(history[1..], cutoff, e);
      assert e in history <==> e == history[0] || e in history[1..];
    }
  }

  /** The filter keeps the original order: it distributes over concatenation. */
  lemma {:induction false} KeepSinceAppend(a: seq<Entry>, b: seq<Entry>, cutoff: real)
    ensures KeepSince(a + b, cutoff) == KeepSince(a, cutoff) + KeepSince(b, cutoff)
  {
    if a != [] {
      assert (a + b)[1..] == a[1..] + b;
      KeepSinceAppend(a[1..], b, cutoff);
    } else {
      assert a + b == b;
    }
  }

  /** On one entry the filter keeps it exactly when it is recent enough. */
  lemma KeepSinceSingle(e: Entry, cutoff: real)
    ensures KeepSince([e], cutoff) == if e.timestamp >= cutoff then [e] else []
  {
  }

  /** A list whose entries are all recent enough passes the filter unchanged. */
  lemma {:induction false} KeepSinceAll(history: seq<Entry>, cutoff: real)
    requires forall i :: 0 <= i < |history| ==> history[i].timestamp >= cutoff
    ensures KeepSince(history, cutoff) == history
  {
    if history != [] {
      KeepSinceAll(history[1..], cutoff);
    }
  }

  /** The cut-off `filter_recent_history` uses: the latest timestamp minus `hours` hours. */
  function Cutoff(history: seq<Entry>, hours: int): real
    requires history != []
  {
    LatestTimestamp(history) - (hours * 3600) as real
  }

  /** `filter_recent_history`: the entries within `hours` hours of the latest one, in their order. */
  function FilterRecentHistory(history: seq<Entry>, hours: int): (r: seq<Entry>)
    ensures history == [] ==> r == []
    ensures history != [] ==> r == KeepSince(history, Cutoff(history, hours))
    ensures |r| <= |history|
    ensures history != [] ==> forall i :: 0 <= i < |r| ==> r[i].timestamp >= Cutoff(history, hours)
  {
    if history == [] then []
    else KeepSince(history, LatestTimestamp(history) - (hours * 3600) as real)
  }

  /** An entry survives the filter exactly when it is within `hours` hours of the latest one. */
  lemma FilterRecentHistoryMembers(history: seq<Entry>, hours: int, e: Entry)
    requires history != []
    ensures e in FilterRecentHistory(history, hours)
        <==> e in history && e.timestamp >= LatestTimestamp(history) - (hours * 3600) as real
  {
    KeepSinceMembers(history, Cutoff(history, hours), e);
  }

  /** A non-empty list drawn from `history` has no later timestamp than `history`. */
  lemma LatestOfSublist(r: seq<Entry>, history: seq<Entry>)
    requires r != [] && history != []
    requires forall k :: 0 <= k < |r| ==> r[k] in history
    ensures LatestTimestamp(r) <= LatestTimestamp(history)
  {
    var j :| 0 <= j < |r| && r[j].timestamp == LatestTimestamp(r);
    assert r[j] in history;
    var m :| 0 <= m < |history| && history[m] == r[j];
  }

  /** With a non-negative window the latest entry always survives, so the filtered history is not empty. */
  lemma FilterRecentHistoryKeepsLatest(history: seq<Entry>, hours: int)
    requires history != [] && hours >= 0
    ensures var r := FilterRecentHistory(history, hours);
      r != [] && LatestTimestamp(r) == LatestTimestamp(history)
  {
    var r := FilterRecentHistory(history, hours);
    var cutoff := Cutoff(history, hours);
    var i :| 0 <= i < |history| && history[i].timestamp == LatestTimestamp(history);
    var e := history[i];
    assert e.timestamp >= cutoff;
    KeepSinceMembers(history, cutoff, e);
    var k :| 0 <= k < |r| && r[k] == e;
    forall m | 0 <= m < |r| ensures r[m] in history {
      KeepSinceMembers(history, cutoff, r[m]);
    }
    LatestOfSublist(r, history);
    assert LatestTimestamp(r) >= r[k].timestamp;
  }

  /** A negative window keeps nothing. */
  lemma FilterRecentHistoryNegativeWindow(history: seq<Entry>, hours: int)
    requires hours < 0
    ensures FilterRecentHistory(history, hours) == []
  {
    if history != [] {
      var r := FilterRecentHistory(history, hours);
      if r != [] {
        KeepSinceMembers(history, Cutoff(history, hours), r[0]);
      }
    }
  }

  /** Filtering an already filtered history changes nothing. */
  lemma FilterRecentHistoryIdempotent(history: seq<Entry>, hours: int)
    ensures FilterRecentHistory(FilterRecentHistory(history, hours), hours) == FilterRecentHistory(history, hours)
  {
    if history != [] {
      if hours < 0 {
        FilterRecentHistoryNegativeWindow(history, hours);
      } else {
        var r := FilterRecentHistory(history, hours);
        FilterRecentHistoryKeepsLatest(history, hours);
        assert Cutoff(r, hours) == Cutoff(history, hours);
        KeepSinceAll(r, Cutoff(history, hours));
      }
    }
  }
}
