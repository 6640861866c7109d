/**
 Direction from candles: indicators over the recent bars feed two decision functions, one for each
 side of the market. The square root is a parameter, since nothing below depends on its value.
 */
module OrganicDirection {
  import opened Numeric
  import Trading

  type Candle = Trading.Candle

  datatype Side = CALL | PUT | SKIP | Named(name: string)

  datatype Reason =
    | OverboughtVeto | OversoldVeto
    | TopRejectionVeto | BottomRejectionVeto
    | DojiVeto
    | SellingPressureVeto | BuyingPressureVeto
    | SlopeVeto
    | SupportPullback | ResistancePullback
    | HealthyUptrend | HealthyDowntrend
    | FlatMarket | FewCandles | DirectionKept

  datatype Verdict = Verdict(side: Side, reason: Reason)

  // ---------- Sums and windows ----------

  function Sum(s: seq<real>): real {
    if s == [] then 0.0 else Sum(s[..|s| - 1]) + s[|s| - 1]
  }

  function Closes(candles: seq<Candle>): (c: seq<real>)
    ensures |c| == |candles|
    ensures forall i :: 0 <= i < |c| ==> c[i] == candles[i].close
  {
    seq(|candles|, i requires 0 <= i < |candles| => candles[i].close)
  }

  function MaxHigh(bars: seq<Candle>): real
    requires bars != []
  {
    if |bars| == 1 then bars[0].high else Max(MaxHigh(bars[..|bars| - 1]), bars[|bars| - 1].high)
  }

  function MinLow(bars: seq<Candle>): real
    requires bars != []
  {
    if |bars| == 1 then bars[0].low else Min(MinLow(bars[..|bars| - 1]), bars[|bars| - 1].low)
  }

  // ---------- Indicators ----------

  function SmoothingFactor(span: nat): real {
    2.0 / (span as real + 1.0)
  }

  /** Entry i of the exponential moving average with smoothing factor alpha. */
  function EmaAt(values: seq<real>, alpha: real, i: nat): real
    requires i < |values|
  {
    if i == 0 then values[0]
    else Times(alpha, values[i]) + Times(1.0 - alpha, EmaAt(values, alpha, i - 1))
  }

  function Ema(values: seq<real>, span: nat): (e: seq<real>)
    ensures |e| == |values|
    ensures forall i :: 0 <= i < |e| ==> e[i] == EmaAt(values, SmoothingFactor(span), i)
  {
    seq(|values|, i requires 0 <= i < |values| => EmaAt(values, SmoothingFactor(span), i))
  }

  function TrueRange(prev: Candle, curr: Candle): real {
    Max(Max(curr.high - curr.low, Abs(curr.high - prev.close)), Abs(curr.low - prev.close))
  }

  /** The true ranges of the last n bars, each against the bar before it. */
  function TrueRanges(candles: seq<Candle>, n: nat): (r: seq<real>)
    requires n < |candles|
    ensures |r| == n
    ensures forall i :: 0 <= i < n ==> r[i] == TrueRange(candles[|candles| - n + i - 1], candles[|candles| - n + i])
  {
    seq(n, i requires 0 <= i < n => TrueRange(candles[|candles| - n + i - 1], candles[|candles| - n + i]))
  }

  function Atr(candles: seq<Candle>): real {
    if |candles| < 15 then 1.0 else Sum(TrueRanges(candles, 14)) / 14.0
  }

  function Gains(closes: seq<real>, n: nat): (g: seq<real>)
    requires n < |closes|
    ensures |g| == n
    ensures forall i :: 0 <= i < n ==> g[i] == Max(0.0, closes[|closes| - n + i] - closes[|closes| - n + i - 1])
  {
    seq(n, i requires 0 <= i < n => Max(0.0, closes[|closes| - n + i] - closes[|closes| - n + i - 1]))
  }

  function Losses(closes: seq<real>, n: nat): (l: seq<real>)
    requires n < |closes|
    ensures |l| == n
    ensures forall i :: 0 <= i < n ==> l[i] == Max(0.0, -(closes[|closes| - n + i] - closes[|closes| - n + i - 1]))
  {
    seq(n, i requires 0 <= i < n => Max(0.0, -(closes[|closes| - n + i] - closes[|closes| - n + i - 1])))
  }

  /** The relative strength index from average gain and average loss. */
  function RsiOf(gain: real, loss: real): real
    requires gain >= 0.0 && loss >= 0.0
  {
    if loss == 0.0 then (if gain > 0.0 then 100.0 else 50.0)
    else 100.0 - 100.0 / (1.0 + gain / loss)
  }

  lemma {:induction false} SumNonNegative(s: seq<real>)
    requires forall i :: 0 <= i < |s| ==> s[i] >= 0.0
    ensures Sum(s) >= 0.0
  {
    if s != [] {
      SumNonNegative(s[..|s| - 1]);
    }
  }

  function Mean(s: seq<real>): real
    requires s != []
  {
    Sum(s) / |s| as real
  }

  function Average(s: seq<real>): (m: real)
    requires s != [] && forall i :: 0 <= i < |s| ==> s[i] >= 0.0
    ensures m >= 0.0
  {
    SumNonNegative(s);
    Mean(s)
  }

  function Rsi(closes: seq<real>, period: nat): real
    requires period > 0
  {
    if |closes| < period + 1 then 50.0
    else
      RsiOf(Average(Gains(closes, period)), Average(Losses(closes, period)))
  }

  function SquaredDeviations(s: seq<real>, mean: real): (d: seq<real>)
    ensures |d| == |s|
    ensures forall i :: 0 <= i < |s| ==> d[i] == Times(s[i] - mean, s[i] - mean)
  {
    seq(|s|, i requires 0 <= i < |s| => Times(s[i] - mean, s[i] - mean))
  }

  /** The position of x in a band of the given half-width around mean. */
  function BandPosition(x: real, mean: real, half: real): real {
    var lower := mean - half;
    var width := mean + half - lower;
    if width > 0.0000000001 then (x - lower) / width else 0.5
  }

  function PctB(closes: seq<real>, period: nat, sqrt: real -> real): real
    requires period > 0
  {
    if |closes| < period then 0.5
    else
      var recent := Trading.LastN(closes, period);
      var mean := Mean(recent);
      var std := sqrt(Sum(SquaredDeviations(recent, mean)) / period as real);
      BandPosition(recent[period - 1], mean, 2.0 * std)
  }

  /** Where the close c lies between the extremes of its window, in percent. */
  function StochasticK(c: real, hh: real, ll: real): real {
    if hh > ll then (c - ll) / (hh - ll) * 100.0 else 50.0
  }

  function StochasticOf(sub: seq<Candle>): real
    requires sub != []
  {
    StochasticK(sub[|sub| - 1].close, MaxHigh(sub), MinLow(sub))
  }

  /** The window of `period` bars that ends `smooth - 1 - i` bars before the last one. */
  function StochasticWindow(candles: seq<Candle>, period: nat, smooth: nat, i: nat): (sub: seq<Candle>)
    requires period > 0 && i < smooth && period + smooth <= |candles|
    ensures |sub| == period
  {
    candles[|candles| - period - smooth + 1 + i..|candles| - smooth + 1 + i]
  }

  function StochasticValues(candles: seq<Candle>, period: nat, smooth: nat): (k: seq<real>)
    requires period > 0 && period + smooth <= |candles|
    ensures |k| == smooth
    ensures forall i :: 0 <= i < smooth ==> k[i] == StochasticOf(StochasticWindow(candles, period, smooth, i))
  {
    seq(smooth, (i: nat) requires i < smooth => StochasticOf(StochasticWindow(candles, period, smooth, i)))
  }

  function Stochastic(candles: seq<Candle>, period: nat, smooth: nat): (real, real)
    requires period > 0 && smooth > 0
  {
    if |candles| < period + smooth then (50.0, 50.0)
    else
      var k := StochasticValues(candles, period, smooth);
      (k[smooth - 1], Sum(k) / smooth as real)
  }

  function Differences(a: seq<real>, b: seq<real>): (d: seq<real>)
    requires |a| == |b|
    ensures |d| == |a|
    ensures forall i :: 0 <= i < |a| ==> d[i] == a[i] - b[i]
  {
    seq(|a|, i requires 0 <= i < |a| => a[i] - b[i])
  }

  /** The MACD histogram. */
  function MacdHistogram(closes: seq<real>, fastSpan: nat, slowSpan: nat, signalSpan: nat): real
    requires slowSpan + signalSpan > 0
  {
    if |closes| < slowSpan + signalSpan then 0.0
    else
      var line := Differences(Ema(closes, fastSpan), Ema(closes, slowSpan));
      line[|line| - 1] - Ema(line, signalSpan)[|line| - 1]
  }

  function Typical(bar: Candle): real {
    (bar.high + bar.low + bar.close) / 3.0
  }

  function Typicals(bars: seq<Candle>): (t: seq<real>)
    ensures |t| == |bars|
    ensures forall i :: 0 <= i < |bars| ==> t[i] == Typical(bars[i])
  {
    seq(|bars|, i requires 0 <= i < |bars| => Typical(bars[i]))
  }

  function Deviations(s: seq<real>, mean: real): (d: seq<real>)
    ensures |d| == |s|
    ensures forall i :: 0 <= i < |s| ==> d[i] == Abs(s[i] - mean)
  {
    seq(|s|, i requires 0 <= i < |s| => Abs(s[i] - mean))
  }

  function MeanDeviation(s: seq<real>): real
    requires s != []
  {
    Sum(Deviations(s, Mean(s))) / |s| as real
  }

  function Cci(candles: seq<Candle>, period: nat): real
    requires period > 0
  {
    if |candles| < period then 0.0
    else
      LastScaledDeviation(Typicals(Trading.LastN(candles, period)))
  }

  function LastScaledDeviation(s: seq<real>): real
    requires s != []
  {
    ScaledDeviation(s[|s| - 1] - Mean(s), MeanDeviation(s))
  }

  function ScaledDeviation(x: real, deviation: real): real {
    if deviation > 0.0000000001 then x / (0.015 * deviation) else 0.0
  }

  function UpMove(prev: Candle, curr: Candle): real {
    var up, down := curr.high - prev.high, prev.low - curr.low;
    if up > down && up > 0.0 then up else 0.0
  }

  function DownMove(prev: Candle, curr: Candle): real {
    var up, down := curr.high - prev.high, prev.low - curr.low;
    if down > up && down > 0.0 then down else 0.0
  }

  function UpMoves(candles: seq<Candle>, n: nat): (r: seq<real>)
    requires n < |candles|
    ensures |r| == n
    ensures forall i :: 0 <= i < n ==> r[i] == UpMove(candles[|candles| - n + i - 1], candles[|candles| - n + i])
  {
    seq(n, i requires 0 <= i < n => UpMove(candles[|candles| - n + i - 1], candles[|candles| - n + i]))
  }

  function DownMoves(candles: seq<Candle>, n: nat): (r: seq<real>)
    requires n < |candles|
    ensures |r| == n
    ensures forall i :: 0 <= i < n ==> r[i] == DownMove(candles[|candles| - n + i - 1], candles[|candles| - n + i])
  {
    seq(n, i requires 0 <= i < n => DownMove(candles[|candles| - n + i - 1], candles[|candles| - n + i]))
  }

  /** The directional index from the three accumulated movements. */
  function DirectionalIndex(range: real, up: real, down: real): real {
    if range <= 0.0 then 0.0
    else
      var pdi, mdi := up / range * 100.0, down / range * 100.0;
      if pdi + mdi > 0.0 then Abs(pdi - mdi) / (pdi + mdi) * 100.0 else 0.0
  }

  function Adx(candles: seq<Candle>, period: nat): real {
    if |candles| < period + 1 then 20.0
    else DirectionalIndex(Sum(TrueRanges(candles, period)), Sum(UpMoves(candles, period)), Sum(DownMoves(candles, period)))
  }

  function BarWeight(bar: Candle): (w: real)
    ensures w > 0.0
  {
    Max(bar.high - bar.low, 0.00001)
  }

  function BarWeights(bars: seq<Candle>): (w: seq<real>)
    ensures |w| == |bars|
    ensures forall i :: 0 <= i < |bars| ==> w[i] == BarWeight(bars[i])
  {
    seq(|bars|, i requires 0 <= i < |bars| => BarWeight(bars[i]))
  }

  function Products(a: seq<real>, b: seq<real>): (p: seq<real>)
    requires |a| == |b|
    ensures |p| == |a|
    ensures forall i :: 0 <= i < |a| ==> p[i] == Times(a[i], b[i])
  {
    seq(|a|, i requires 0 <= i < |a| => Times(a[i], b[i]))
  }

  lemma {:induction false} BarWeightsPositive(bars: seq<Candle>)
    requires bars != []
    ensures Sum(BarWeights(bars)) > 0.0
  {
    var w, n := BarWeights(bars), |bars| - 1;
    assert w[..n] == BarWeights(bars[..n]);
    if n > 0 {
      BarWeightsPositive(bars[..n]);
    }
  }

  datatype Bands = Bands(vwap: real, upper: real, lower: real)

  function WeightedMean(bars: seq<Candle>): real
    requires bars != []
  {
    BarWeightsPositive(bars);
    Sum(Products(Typicals(bars), BarWeights(bars))) / Sum(BarWeights(bars))
  }

  function WeightedVariance(bars: seq<Candle>): real
    requires bars != []
  {
    BarWeightsPositive(bars);
    Sum(Products(BarWeights(bars), SquaredDeviations(Typicals(bars), WeightedMean(bars)))) / Sum(BarWeights(bars))
  }

  function SessionBars(candles: seq<Candle>): seq<Candle> {
    Trading.LastN(candles, 72)
  }

  function SessionBands(candles: seq<Candle>, sqrt: real -> real): Bands {
    if candles == [] then Bands(0.0, 0.0, 0.0)
    else
      var bars := SessionBars(candles);
      var vwap, variance := WeightedMean(bars), WeightedVariance(bars);
      var std := if variance > 0.0 then sqrt(variance) else 0.0;
      Bands(vwap, vwap + 1.5 * std, vwap - 1.5 * std)
  }

  // ---------- Decision ----------

  datatype Readings = Readings(
    close: real, prevClose: real, body: real, atr: real, upperWick: real, lowerWick: real,
    rsi: real, pctB: real, stochK: real, stochD: real, mHist: real, cci: real, adx: real,
    vwapUpper: real, vwapLower: real, slope: real, bearish: bool, bullish: bool)
  {
    predicate IsFlat() {
      adx < 12.0 && Abs(close - prevClose) < 0.10 * atr && body < 0.10 * atr
    }

    predicate IsDoji() {
      body < 0.08 * atr
    }
  }

  /** The change of the 20-bar average over the last two bars. */
  function EmaSlope(closes: seq<real>): real
    requires |closes| >= 3
  {
    var ema := Ema(closes, 20);
    ema[|ema| - 1] - ema[|ema| - 3]
  }

  /** Combines the indicators with what is read off the last two bars. */
  function Assemble(bar: Candle, prev: Candle, atr: real, rsi: real, pctB: real, stoch: (real, real),
                    mHist: real, cci: real, adx: real, bands: Bands, slope: real): Readings
  {
    Readings(
      bar.close, prev.close, Abs(bar.close - bar.open), atr,
      bar.high - Max(bar.open, bar.close), Min(bar.open, bar.close) - bar.low,
      rsi, pctB, stoch.0, stoch.1, mHist, cci, adx, bands.upper, bands.lower, slope,
      bar.close < bar.open || bar.close < prev.close,
      bar.close > bar.open || bar.close > prev.close)
  }

  function Measure(candles: seq<Candle>, sqrt: real -> real): Readings
    requires |candles| >= 30
  {
    var closes := Closes(candles);
    Assemble(candles[|candles| - 1], candles[|candles| - 2], Atr(candles), Rsi(closes, 14), PctB(closes, 14, sqrt),
             Stochastic(candles, 14, 3), MacdHistogram(closes, 7, 14, 5), Cci(candles, 14), Adx(candles, 14),
             SessionBands(candles, sqrt), EmaSlope(closes))
  }

  function EvaluateUptrend(r: Readings): Verdict {
    if r.pctB >= 0.92 || r.rsi >= 70.0 || (r.vwapUpper > 0.0 && r.close > r.vwapUpper) then
      Verdict(SKIP, OverboughtVeto)
    else if !r.IsDoji() && r.upperWick > 0.80 * r.body && r.upperWick > 0.35 * r.atr then
      Verdict(SKIP, TopRejectionVeto)
    else if r.IsDoji() && r.lowerWick <= r.upperWick then
      Verdict(SKIP, DojiVeto)
    else if r.mHist < 0.0 && r.cci < -100.0 && r.pctB < 0.25 then
      Verdict(SKIP, SellingPressureVeto)
    else if r.slope < -0.10 * r.atr then
      Verdict(SKIP, SlopeVeto)
    else if r.lowerWick > 0.60 * r.body || r.lowerWick > 0.30 * r.atr || (r.stochK >= r.stochD && !r.bearish) then
      Verdict(CALL, SupportPullback)
    else
      Verdict(CALL, HealthyUptrend)
  }

  function EvaluateDowntrend(r: Readings): Verdict {
    if r.pctB <= 0.08 || r.rsi <= 30.0 || (r.vwapLower > 0.0 && r.close < r.vwapLower) then
      Verdict(SKIP, OversoldVeto)
    else if !r.IsDoji() && r.lowerWick > 0.80 * r.body && r.lowerWick > 0.35 * r.atr then
      Verdict(SKIP, BottomRejectionVeto)
    else if r.IsDoji() && r.upperWick <= r.lowerWick then
      Verdict(SKIP, DojiVeto)
    else if r.mHist > 0.0 && r.cci > 100.0 && r.pctB > 0.75 then
      Verdict(SKIP, BuyingPressureVeto)
    else if r.slope > 0.10 * r.atr then
      Verdict(SKIP, SlopeVeto)
    else if r.upperWick > 0.60 * r.body || r.upperWick > 0.30 * r.atr || (r.stochK <= r.stochD && !r.bullish) then
      Verdict(PUT, ResistancePullback)
    else
      Verdict(PUT, HealthyDowntrend)
  }

  function Decide(r: Readings, signal: Side): Verdict {
    if r.IsFlat() then Verdict(SKIP, FlatMarket)
    else if signal == CALL then EvaluateUptrend(r)
    else if signal == PUT then EvaluateDowntrend(r)
    else Verdict(signal, DirectionKept)
  }

  function OrganicVerdict(candles: seq<Candle>, signal: Side, sqrt: real -> real): Verdict {
    if |candles| < 30 then Verdict(signal, FewCandles)
    else Decide(Measure(candles, sqrt), signal)
  }

  // ---------- The loops of the source ----------

  lemma SumStep(s: seq<real>, i: nat)
    requires i < |s|
    ensures Sum(s[..i + 1]) == Sum(s[..i]) + s[i]
  {
    assert s[..i + 1][..i] == s[..i];
  }

  lemma SumWhole(s: seq<real>)
    ensures Sum(s[..|s|]) == Sum(s)
  {
    assert s[..|s|] == s;
  }

  method CalcEma(values: seq<real>, span: nat) returns (result: seq<real>)
    requires values != []
    ensures result == Ema(values, span)
  {
    var alpha := 2.0 / (span as real + 1.0);
    result := [values[0]];
    for i := 1 to |values|
      invariant |result| == i
      invariant forall j :: 0 <= j < i ==> result[j] == EmaAt(values, alpha, j)
    {
      result := result + [Times(alpha, values[i]) + Times(1.0 - alpha, result[i - 1])];
    }
  }

  method CalcAtr(candles: seq<Candle>) returns (atr: real)
    ensures atr == Atr(candles)
  {
    if |candles| < 15 {
      return 1.0;
    }
    var n, ranges, total := |candles|, [], 0.0;
    ghost var spec := TrueRanges(candles, 14);
    for i := 0 to 14
      invariant |ranges| == i && ranges == spec[..i] && total == Sum(spec[..i])
    {
      var range := TrueRange(candles[n - 14 + i - 1], candles[n - 14 + i]);
      SumStep(spec, i);
      ranges := ranges + [range];
      total := total + range;
    }
    SumWhole(spec);
    atr := total / 14.0;
  }

  method CalcRsi(closes: seq<real>, period: nat) returns (rsi: real)
    requires period > 0
    ensures rsi == Rsi(closes, period)
  {
    if |closes| < period + 1 {
      return 50.0;
    }
    hide RsiOf;
    var base, gained, lost := |closes| - period, 0.0, 0.0;
    ghost var gains, losses := Gains(closes, period), Losses(closes, period);
    for i := 0 to period
      invariant gained == Sum(gains[..i]) && lost == Sum(losses[..i])
    {
      var change := closes[base + i] - closes[base + i - 1];
      SumStep(gains, i);
      SumStep(losses, i);
      gained, lost := gained + Max(0.0, change), lost + Max(0.0, -change);
    }
    SumWhole(gains);
    SumWhole(losses);
    assert gained / period as real == Average(gains) && lost / period as real == Average(losses);
    rsi := RsiOf(gained / period as real, lost / period as real);
  }

  method CalcStochastic(candles: seq<Candle>, period: nat, smooth: nat) returns (k: real, d: real)
    requires period > 0 && smooth > 0
    ensures (k, d) == Stochastic(candles, period, smooth)
  {
    if |candles| < period + smooth {
      return 50.0, 50.0;
    }
    var values, total := [], 0.0;
    ghost var spec := StochasticValues(candles, period, smooth);
    for i := 0 to smooth
      invariant |values| == i && values == spec[..i] && total == Sum(spec[..i])
    {
      var value := StochasticOf(StochasticWindow(candles, period, smooth, i));
      SumStep(spec, i);
      values := values + [value];
      total := total + value;
    }
    SumWhole(spec);
    return values[smooth - 1], total / smooth as real;
  }

  method CalcAdx(candles: seq<Candle>, period: nat) returns (adx: real)
    ensures adx == Adx(candles, period)
  {
    if |candles| < period + 1 {
      return 20.0;
    }
    var base, range, plus, minus := |candles| - period, 0.0, 0.0, 0.0;
    ghost var ranges := TrueRanges(candles, period);
    ghost var ups, downs := UpMoves(candles, period), DownMoves(candles, period);
    for i := 0 to period
      invariant range == Sum(ranges[..i]) && plus == Sum(ups[..i]) && minus == Sum(downs[..i])
    {
      var prev, curr := candles[base + i - 1], candles[base + i];
      SumStep(ranges, i);
      SumStep(ups, i);
      SumStep(downs, i);
      range := range + TrueRange(prev, curr);
      assert ups[i] == UpMove(prev, curr) && downs[i] == DownMove(prev, curr);
      var up, down := curr.high - prev.high, prev.low - curr.low;
      if up > down && up > 0.0 {
        plus := plus + up;
      }
      if down > up && down > 0.0 {
        minus := minus + down;
      }
    }
    SumWhole(ranges);
    SumWhole(ups);
    SumWhole(downs);
    adx := DirectionalIndex(range, plus, minus);
  }

  method CalcSessionBands(candles: seq<Candle>, sqrt: real -> real) returns (bands: Bands)
    ensures bands == SessionBands(candles, sqrt)
  {
    if candles == [] {
      return Bands(0.0, 0.0, 0.0);
    }
    var bars := SessionBars(candles);
    bands := BandsOf(bars, sqrt);
  }

  method BandsOf(bars: seq<Candle>, sqrt: real -> real) returns (bands: Bands)
    requires bars != []
    ensures var vwap, variance := WeightedMean(bars), WeightedVariance(bars);
            var std := if variance > 0.0 then sqrt(variance) else 0.0;
            bands == Bands(vwap, vwap + 1.5 * std, vwap - 1.5 * std)
  {
    assert Sum([]) == 0.0;
    hide Sum, Products, SquaredDeviations, BarWeight, Typical;
    var cumPv, cumVol, tps, weights := 0.0, 0.0, [], [];
    ghost var t, w := Typicals(bars), BarWeights(bars);
    assert Products(t, w)[..0] == [] && w[..0] == [];
    for i := 0 to |bars|
      invariant |tps| == i && |weights| == i && tps == t[..i] && weights == w[..i]
      invariant cumPv == Sum(Products(t, w)[..i]) && cumVol == Sum(w[..i])
    {
      var tp, weight := Typical(bars[i]), BarWeight(bars[i]);
      SumStep(Products(t, w), i);
      SumStep(w, i);
      tps, weights := tps + [tp], weights + [weight];
      cumPv, cumVol := cumPv + Times(tp, weight), cumVol + weight;
    }
    SumWhole(Products(t, w));
    SumWhole(w);
    BarWeightsPositive(bars);
    assert tps == t && weights == w;
    var vwap := cumPv / cumVol;
    var variance := Sum(Products(weights, SquaredDeviations(tps, vwap))) / cumVol;
    var std := if variance > 0.0 then sqrt(variance) else 0.0;
    bands := Bands(vwap, vwap + 1.5 * std, vwap - 1.5 * std);
  }

  method CalcMacdHistogram(closes: seq<real>, fastSpan: nat, slowSpan: nat, signalSpan: nat) returns (hist: real)
    requires slowSpan + signalSpan > 0
    ensures hist == MacdHistogram(closes, fastSpan, slowSpan, signalSpan)
  {
    if |closes| < slowSpan + signalSpan {
      return 0.0;
    }
    hide EmaAt, SmoothingFactor;
    var fast := CalcEma(closes, fastSpan);
    var slow := CalcEma(closes, slowSpan);
    var line := Differences(fast, slow);
    var signal := CalcEma(line, signalSpan);
    hist := line[|line| - 1] - signal[|line| - 1];
  }

  method ResolveOrganicDirection(candles: seq<Candle>, signal: Side, sqrt: real -> real) returns (verdict: Verdict)
    ensures verdict == OrganicVerdict(candles, signal, sqrt)
  {
    if |candles| < 30 {
      return Verdict(signal, FewCandles);
    }
    hide *;
    var closes := Closes(candles);
    MeasureFrom(candles, sqrt);
    var atr := CalcAtr(candles);
    var rsi := CalcRsi(closes, 14);
    var stochK, stochD := CalcStochastic(candles, 14, 3);
    var hist := CalcMacdHistogram(closes, 7, 14, 5);
    var adx := CalcAdx(candles, 14);
    var bands := CalcSessionBands(candles, sqrt);
    var ema := CalcEma(closes, 20);
    SlopeFrom(closes);
    var readings := Assemble(candles[|candles| - 1], candles[|candles| - 2], atr, rsi, PctB(closes, 14, sqrt),
                             (stochK, stochD), hist, Cci(candles, 14), adx, bands, ema[|ema| - 1] - ema[|ema| - 3]);
    assert atr == Atr(candles);
    assert (stochK, stochD) == Stochastic(candles, 14, 3);
    assert hist == MacdHistogram(closes, 7, 14, 5);
    assert ema[|ema| - 1] - ema[|ema| - 3] == EmaSlope(closes);
    assert readings == Measure(candles, sqrt);
    verdict := Decide(readings, signal);
    VerdictFrom(candles, signal, sqrt);
  }

  lemma MeasureFrom(candles: seq<Candle>, sqrt: real -> real)
    requires |candles| >= 30
    ensures var closes := Closes(candles);
            Measure(candles, sqrt) ==
            Assemble(candles[|candles| - 1], candles[|candles| - 2], Atr(candles), Rsi(closes, 14), PctB(closes, 14, sqrt),
                     Stochastic(candles, 14, 3), MacdHistogram(closes, 7, 14, 5), Cci(candles, 14), Adx(candles, 14),
                     SessionBands(candles, sqrt), EmaSlope(closes))
  {
    hide Rsi, Atr, Stochastic, Adx, SessionBands, PctB, Cci, MacdHistogram, Assemble, EmaSlope;
  }

  lemma SlopeFrom(closes: seq<real>)
    requires |closes| >= 3
    ensures EmaSlope(closes) == Ema(closes, 20)[|closes| - 1] - Ema(closes, 20)[|closes| - 3]
  {
    hide EmaAt, SmoothingFactor;
  }

  lemma VerdictFrom(candles: seq<Candle>, signal: Side, sqrt: real -> real)
    requires |candles| >= 30
    ensures OrganicVerdict(candles, signal, sqrt) == Decide(Measure(candles, sqrt), signal)
  {
    hide Measure, Decide;
  }
}
