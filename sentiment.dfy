/**
 * The pump score: a weighted sum of a sentiment, a technical and a hype
 * component, truncated, penalised, clamped to [0, 100] and classified; the
 * clamped social-volume increase it is fed; and the mock data used when the
 * sentiment API is unavailable.
 *
 * Python floats are exact reals here; the weights 0.4, 0.5 and 0.2 are the
 * decimal values, not their binary approximations.
 */
module Sentiment {
  import opened Wrappers

  /** The two keys of a sentiment dict the score reads; a missing key is `None`. */
  datatype SentimentInput = SentimentInput(currentSentiment: Option<real>, percentIncrease: Option<real>)

  /** An RSI value or the string `"N/A"`. */
  datatype RsiReading = Reading(value: real) | NotAvailable

  /** The two keys of a technical-metrics dict the score reads. */
  datatype TechnicalMetrics = TechnicalMetrics(volumeChange1h: Option<real>, rsi: Option<RsiReading>)

  datatype Recommendation = Buy | Wait | Sell   // "COMPRA", "ESPERA", "VENDA"

  /** What `calculate_pump_score` returns, without the free-text reason. */
  datatype PumpScore = PumpScore(score: int, recommendation: Recommendation, highRisk: bool)

  function Min(a: real, b: real): real {
    if a <= b then a else b
  }

  function Max(a: real, b: real): real {
    if a >= b then a else b
  }

  function Abs(x: real): real {
    if x < 0.0 then -x else x
  }

  /** Python's `int(x)` on a float: truncation toward zero. */
  function Truncate(x: real): (n: int)
    ensures x >= 0.0 ==> 0 <= n && n as real <= x < n as real + 1.0
    ensures x < 0.0 ==> n <= 0 && n as real - 1.0 < x <= n as real
  {
    if x >= 0.0 then x.Floor else -((-x).Floor)
  }

  /** Truncation toward zero does not reverse order. */
  lemma TruncateMonotone(x: real, y: real)
    requires x <= y
    ensures Truncate(x) <= Truncate(y)
  {
    if x >= 0.0 {
      assert x.Floor <= y.Floor;
    } else if y < 0.0 {
      assert (-y).Floor <= (-x).Floor;
    }
  }

  /** `sentiment_data.get("sentimento_atual", 50)`. */
  function SentimentOf(sd: SentimentInput): real {
    sd.currentSentiment.GetOr(50.0)
  }

  /** `technical_metrics.get("rsi", 50)`, with `"N/A"` read as 50. */
  function RsiOf(tm: TechnicalMetrics): real {
    match tm.rsi
    case None => 50.0
    case Some(NotAvailable) => 50.0
    case Some(Reading(v)) => v
  }

  /** 0 up to a sentiment of 50, then two points per point above 50. */
  function SentimentScore(sentiment: real): (r: real)
    ensures sentiment <= 50.0 ==> r == 0.0
    ensures sentiment > 50.0 ==> r > 0.0 && r / 2.0 == sentiment - 50.0
  {
    if sentiment > 50.0 then (sentiment - 50.0) * 2.0 else 0.0
  }

  /** Half the clamped volume change plus half the non-negative RSI score, which peaks at RSI 60. */
  function TechnicalScore(volumeChange: real, rsi: real): (r: real)
    ensures 0.0 <= r <= 100.0
  {
    var rsiScore := 100.0 - Abs(rsi - 60.0) * 2.0;
    Min(100.0, Max(0.0, volumeChange)) * 0.5 + Max(0.0, rsiScore) * 0.5
  }

  /** Three points per point of social increase, capped at 100 (no floor). */
  function HypeScore(increase: real): (r: real)
    ensures r <= 100.0
    ensures 0.0 <= increase ==> 0.0 <= r
  {
    Min(100.0, increase * 3.0)
  }

  /** The weighted sum before truncation. */
  function WeightedScore(sd: SentimentInput, tm: TechnicalMetrics): real {
    SentimentScore(SentimentOf(sd)) * 0.4
      + TechnicalScore(tm.volumeChange1h.GetOr(0.0), RsiOf(tm)) * 0.4
      + HypeScore(sd.percentIncrease.GetOr(0.0)) * 0.2
  }

  /** The penalties: 20 for an overbought RSI, 30 for a weak sentiment. */
  function Penalty(sentiment: real, rsi: real): (p: int)
    ensures p == (if rsi > 80.0 then 20 else 0) + (if sentiment < 40.0 then 30 else 0)
  {
    var p := if rsi > 80.0 then 20 else 0;
    if sentiment < 40.0 then p + 30 else p
  }

  /** `calculate_pump_score`. */
  function CalculatePumpScore(sd: SentimentInput, tm: TechnicalMetrics): (r: PumpScore)
    ensures 0 <= r.score <= 100
    ensures var unclamped := Truncate(WeightedScore(sd, tm)) - Penalty(SentimentOf(sd), RsiOf(tm));
      && (0 <= unclamped <= 100 ==> r.score == unclamped)
      && (unclamped < 0 ==> r.score == 0)
      && (unclamped > 100 ==> r.score == 100)
    ensures r.recommendation == Buy <==> r.score >= 80
    ensures r.recommendation == Wait <==> 50 <= r.score < 80
    ensures r.recommendation == Sell <==> r.score < 50
    ensures r.highRisk <==> RsiOf(tm) > 80.0 || SentimentOf(sd) < 30.0
  {
    var sentiment := SentimentOf(sd);
    var rsi := RsiOf(tm);
    var score := Truncate(WeightedScore(sd, tm));
    var score := if rsi > 80.0 then score - 20 else score;
    var score := if sentiment < 40.0 then score - 30 else score;
    var score := if score < 0 then 0 else if score > 100 then 100 else score;
    var recommendation := if score >= 80 then Buy else if score >= 50 then Wait else Sell;
    PumpScore(score, recommendation, rsi > 80.0 || sentiment < 30.0)
  }

  /** More social increase never lowers the score, other inputs equal. */
  lemma ScoreMonotoneInIncrease(sentiment: Option<real>, a: real, b: real, tm: TechnicalMetrics)
    requires a <= b
    ensures CalculatePumpScore(SentimentInput(sentiment, Some(a)), tm).score
         <= CalculatePumpScore(SentimentInput(sentiment, Some(b)), tm).score
  {
    var x := SentimentInput(sentiment, Some(a));
    var y := SentimentInput(sentiment, Some(b));
    assert HypeScore(a) <= HypeScore(b);
    assert WeightedScore(x, tm) <= WeightedScore(y, tm);
    TruncateMonotone(WeightedScore(x, tm), WeightedScore(y, tm));
  }

  /** A higher sentiment never lowers the score, other inputs equal: its component grows and its penalty can only go. */
  lemma ScoreMonotoneInSentiment(a: real, b: real, increase: Option<real>, tm: TechnicalMetrics)
    requires a <= b
    ensures CalculatePumpScore(SentimentInput(Some(a), increase), tm).score
         <= CalculatePumpScore(SentimentInput(Some(b), increase), tm).score
  {
    var x := SentimentInput(Some(a), increase);
    var y := SentimentInput(Some(b), increase);
    assert SentimentScore(a) <= SentimentScore(b);
    assert WeightedScore(x, tm) <= WeightedScore(y, tm);
    TruncateMonotone(WeightedScore(x, tm), WeightedScore(y, tm));
  }

  /** With nothing known, the score is 16 (RSI 50 gives a technical score of 40): sell, no high risk. */
  lemma DefaultInputsScore()
    ensures CalculatePumpScore(SentimentInput(None, None), TechnicalMetrics(None, None)) == PumpScore(16, Sell, false)
  {
    var sd := SentimentInput(None, None);
    var tm := TechnicalMetrics(None, None);
    assert TechnicalScore(0.0, 50.0) == 40.0;
    assert WeightedScore(sd, tm) == 16.0;
    assert Truncate(16.0) == 16 by {
      assert (16.0).Floor == 16;
    }
  }

  // ------------------------------------------------------------ sentiment data

  /** The dict `get_sentiment_data` returns. */
  datatype SentimentData = SentimentData(
    mentions30min: int,
    mentions5min: int,
    percentIncrease: real,
    kols: seq<string>,
    currentSentiment: real,
    viralPosts: string,
    twitterFollowers: int)

  /** The two keys the score reads. */
  function ScoreInput(d: SentimentData): SentimentInput {
    SentimentInput(Some(d.currentSentiment), Some(d.percentIncrease))
  }

  /** `percent_aumento`: the volume change in percent, clamped to [0, 100]; 0 without a positive previous volume. */
  function VolumeIncrease(totalVolume: real, previousVolume: Option<real>): (r: real)
    ensures 0.0 <= r <= 100.0
    ensures !(previousVolume.Some? && previousVolume.value > 0.0) ==> r == 0.0
    ensures previousVolume.Some? && previousVolume.value > 0.0 ==>
      var p := previousVolume.value;
      && (totalVolume <= p ==> r == 0.0)
      && (totalVolume >= 2.0 * p ==> r == 100.0)
      && (p <= totalVolume <= 2.0 * p ==> r * p == (totalVolume - p) * 100.0)
  {
    if previousVolume.Some? && previousVolume.value > 0.0 then
      var p := previousVolume.value;
      var pct := ((totalVolume - p) / p) * 100.0;
      DivisionBounds(totalVolume - p, p);
      Max(0.0, Min(100.0, pct))
    else 0.0
  }

  lemma DivisionBounds(d: real, p: real)
    requires p > 0.0
    ensures d <= 0.0 ==> (d / p) * 100.0 <= 0.0
    ensures d >= p ==> (d / p) * 100.0 >= 100.0
    ensures (d / p) * 100.0 * p == d * 100.0
  {
  }

  /** `_get_mock_sentiment_data(symbol, reason)`; the symbol is not used. */
  function MockSentimentData(reason: string): (d: SentimentData)
    ensures d.kols == ["Mock"] && d.mentions30min == 100 && d.mentions5min == 15 && d.twitterFollowers == 0
    ensures d.currentSentiment == 50.0 && d.percentIncrease == 10.0
    ensures d.viralPosts == "Mock data (" + reason + ")"
  {
    SentimentData(100, 15, 10.0, ["Mock"], 50.0, "Mock data (" + reason + ")", 0)
  }

  /** The mock data with no technical metrics scores 22: sell, no high risk. */
  lemma MockDataScore(reason: string)
    ensures CalculatePumpScore(ScoreInput(MockSentimentData(reason)), TechnicalMetrics(None, None)) == PumpScore(22, Sell, false)
  {
    var sd := ScoreInput(MockSentimentData(reason));
    var tm := TechnicalMetrics(None, None);
    assert TechnicalScore(0.0, 50.0) == 40.0;
    assert HypeScore(10.0) == 30.0;
    assert WeightedScore(sd, tm) == 22.0;
    assert Truncate(22.0) == 22 by {
      assert (22.0).Floor == 22;
    }
  }
}
