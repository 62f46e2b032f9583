/** The indicator record that the TA library produces for a window of candles,
    and `score_setup`, the 0-7 setup score built from it. */
module Indicators {
  import opened Basics

  /** The latest values of the indicators for one pair.  How they are computed
      (EMA, RSI, MACD, ATR, volume average) is not part of this model. */
  datatype Indicators = Indicators(
    price: real,
    emaFast: real,
    emaSlow: real,
    rsi: real,
    rsiPrev: real,
    macd: real,
    macdSignal: real,
    macdHist: real,
    atr: real,
    volume: real,
    volumeMa: real,
    volumeRatio: real)

  /** What fetching a pair's recent candles and computing its indicators
      gives: the fetch may raise; otherwise the number of candles, and the
      indicators unless their computation raised. */
  datatype KlineSample =
    | FetchFailed
    | Fetched(candles: nat, indicators: Option<Indicators>)

  /** Trend alignment: two points for price > fast EMA > slow EMA, one point
      for price above the fast EMA alone. */
  function TrendPoints(ind: Indicators): (p: nat)
    ensures p == 2 <==> ind.price > ind.emaFast > ind.emaSlow
    ensures p == 1 <==> ind.price > ind.emaFast && ind.emaFast <= ind.emaSlow
    ensures p == 0 <==> ind.price <= ind.emaFast
  {
    if ind.price > ind.emaFast > ind.emaSlow then 2
    else if ind.price > ind.emaFast then 1
    else 0
  }

  /** RSI momentum: one point for an RSI strictly inside (30, 70) that is rising. */
  function RsiPoints(ind: Indicators): (p: nat)
    ensures p <= 1
    ensures p == 1 <==> 30.0 < ind.rsi < 70.0 && ind.rsi > ind.rsiPrev
  {
    if 30.0 < ind.rsi < 70.0 && ind.rsi > ind.rsiPrev then 1 else 0
  }

  /** MACD confirmation: one point for a positive histogram, a second one only
      if the MACD line is also above its signal line. */
  function MacdPoints(ind: Indicators): (p: nat)
    ensures p <= 2
    ensures p >= 1 <==> ind.macdHist > 0.0
    ensures p == 2 <==> ind.macdHist > 0.0 && ind.macd > ind.macdSignal
  {
    if ind.macdHist > 0.0 then (if ind.macd > ind.macdSignal then 2 else 1) else 0
  }

  /** Volume confirmation: one point for a volume ratio strictly above 1.2. */
  function VolumePoints(ind: Indicators): (p: nat)
    ensures p <= 1
    ensures p == 1 <==> ind.volumeRatio > 1.2
  {
    if ind.volumeRatio > 1.2 then 1 else 0
  }

  /** ATR as a percentage of the price (Python divides by the price). */
  function AtrPercent(ind: Indicators): real
    requires ind.price != 0.0
  {
    (ind.atr / ind.price) * 100.0
  }

  /** Volatility: one point for an ATR strictly between 1% and 5% of the price. */
  function VolatilityPoints(ind: Indicators): (p: nat)
    requires ind.price != 0.0
    ensures p <= 1
    ensures p == 1 <==> 1.0 < AtrPercent(ind) < 5.0
  {
    if 1.0 < AtrPercent(ind) < 5.0 then 1 else 0
  }

  /** `score_setup`: the sum of the five components.  None where Python raises
      (a zero price makes the ATR percentage divide by zero). */
  function ScoreSetup(ind: Indicators): (r: Option<int>)
    ensures r.None? <==> ind.price == 0.0
    ensures r.Some? ==> 0 <= r.value <= 7
    ensures r.Some? ==> r.value == TrendPoints(ind) + RsiPoints(ind) + MacdPoints(ind)
                                   + VolumePoints(ind) + VolatilityPoints(ind)
  {
    if ind.price == 0.0 then None
    else
      var score := 0;
      var score := score + TrendPoints(ind);
      var score := score + RsiPoints(ind);
      var score := score + MacdPoints(ind);
      var score := score + VolumePoints(ind);
      var score := score + VolatilityPoints(ind);
      Some(score)
  }

  /** A MACD line above its signal adds nothing while the histogram is not positive. */
  lemma MacdCrossNeedsHistogram(ind: Indicators)
    requires ind.price != 0.0 && ind.macdHist <= 0.0
    ensures ScoreSetup(ind).value
            == TrendPoints(ind) + RsiPoints(ind) + VolumePoints(ind) + VolatilityPoints(ind)
  {
  }

  /** The maximum score is reached exactly when every component is at its maximum. */
  lemma ScoreSetupMaximal(ind: Indicators)
    requires ind.price != 0.0
    ensures ScoreSetup(ind).value == 7 <==>
              ind.price > ind.emaFast > ind.emaSlow
              && 30.0 < ind.rsi < 70.0 && ind.rsi > ind.rsiPrev
              && ind.macdHist > 0.0 && ind.macd > ind.macdSignal
              && ind.volumeRatio > 1.2
              && 1.0 < AtrPercent(ind) < 5.0
  {
  }
}
