/**
 Mirror symmetry of the direction decision. Reflecting every price p to c - p and swapping CALL with
 PUT turns the decision into its mirror image, reason included; the one exception is the sign test
 on the session bands, which reflection does not preserve.
 */
module OrganicMirror {
  import opened Numeric
  import opened OrganicDirection
  import Trading

  // ---------- Reflection ----------

  function Reflect(c: real, bar: Candle): Candle {
    Trading.Candle(bar.epoch, c - bar.open, c - bar.low, c - bar.high, c - bar.close)
  }

  function ReflectAll(c: real, bars: seq<Candle>): (r: seq<Candle>)
    ensures |r| == |bars|
    ensures forall i :: 0 <= i < |bars| ==> r[i] == Reflect(c, bars[i])
  {
    seq(|bars|, i requires 0 <= i < |bars| => Reflect(c, bars[i]))
  }

  function ReflectValues(c: real, s: seq<real>): (r: seq<real>)
    ensures |r| == |s|
    ensures forall i :: 0 <= i < |s| ==> r[i] == c - s[i]
  {
    seq(|s|, i requires 0 <= i < |s| => c - s[i])
  }

  function Negate(s: seq<real>): seq<real> {
    ReflectValues(0.0, s)
  }

  function MirrorSide(side: Side): Side {
    match side
    case CALL => PUT
    case PUT => CALL
    case _ => side
  }

  function MirrorReason(reason: Reason): Reason {
    match reason
    case OverboughtVeto => OversoldVeto
    case OversoldVeto => OverboughtVeto
    case TopRejectionVeto => BottomRejectionVeto
    case BottomRejectionVeto => TopRejectionVeto
    case SellingPressureVeto => BuyingPressureVeto
    case BuyingPressureVeto => SellingPressureVeto
    case SupportPullback => ResistancePullback
    case ResistancePullback => SupportPullback
    case HealthyUptrend => HealthyDowntrend
    case HealthyDowntrend => HealthyUptrend
    case _ => reason
  }

  function MirrorVerdict(v: Verdict): Verdict {
    Verdict(MirrorSide(v.side), MirrorReason(v.reason))
  }

  /** What reflection does to the readings: the prediction that the theorem below confirms. */
  function MirrorReadings(c: real, r: Readings): Readings {
    r.(close := c - r.close, prevClose := c - r.prevClose,
       upperWick := r.lowerWick, lowerWick := r.upperWick,
       rsi := 100.0 - r.rsi, pctB := 1.0 - r.pctB,
       stochK := 100.0 - r.stochK, stochD := 100.0 - r.stochD,
       mHist := -r.mHist, cci := -r.cci, slope := -r.slope,
       vwapUpper := c - r.vwapLower, vwapLower := c - r.vwapUpper,
       bearish := r.bullish, bullish := r.bearish)
  }

  // ---------- Sums ----------

  lemma {:induction false} SumReflected(c: real, s: seq<real>)
    ensures Sum(ReflectValues(c, s)) == |s| as real * c - Sum(s)
  {
    if s != [] {
      var n := |s| - 1;
      assert ReflectValues(c, s)[..n] == ReflectValues(c, s[..n]);
      SumReflected(c, s[..n]);
      assert (n + 1) as real * c == n as real * c + c;
    }
  }

  lemma MeanReflected(c: real, s: seq<real>)
    requires s != []
    ensures Mean(ReflectValues(c, s)) == c - Mean(s)
  {
    SumReflected(c, s);
    QuotientReflected(c, Sum(s), |s| as real);
  }

  lemma QuotientReflected(c: real, p: real, n: real)
    requires n > 0.0
    ensures (n * c - p) / n == c - p / n
  {
    var q := p / n;
    assert q * n == p;
    assert (c - q) * n == n * c - p;
  }

  // ---------- Indicators ----------

  lemma ClosesReflected(c: real, candles: seq<Candle>)
    ensures Closes(ReflectAll(c, candles)) == ReflectValues(c, Closes(candles))
  {
  }

  lemma {:induction false} EmaReflected(c: real, values: seq<real>, alpha: real, i: nat)
    requires i < |values|
    ensures EmaAt(ReflectValues(c, values), alpha, i) == c - EmaAt(values, alpha, i)
  {
    if i > 0 {
      EmaReflected(c, values, alpha, i - 1);
      BlendReflected(c, alpha, values[i], EmaAt(values, alpha, i - 1));
    }
  }

  lemma BlendReflected(c: real, alpha: real, x: real, y: real)
    ensures Times(alpha, c - x) + Times(1.0 - alpha, c - y) == c - (Times(alpha, x) + Times(1.0 - alpha, y))
  {
  }

  lemma EmaSeriesReflected(c: real, values: seq<real>, span: nat)
    ensures Ema(ReflectValues(c, values), span) == ReflectValues(c, Ema(values, span))
  {
    hide EmaAt, SmoothingFactor;
    forall i | 0 <= i < |values|
      ensures Ema(ReflectValues(c, values), span)[i] == c - Ema(values, span)[i]
    {
      EmaReflected(c, values, SmoothingFactor(span), i);
    }
  }

  lemma MacdReflected(c: real, closes: seq<real>, fast: nat, slow: nat, signal: nat)
    requires slow + signal > 0
    ensures MacdHistogram(ReflectValues(c, closes), fast, slow, signal) == -MacdHistogram(closes, fast, slow, signal)
  {
    hide EmaAt, SmoothingFactor;
    if |closes| >= slow + signal {
      EmaSeriesReflected(c, closes, fast);
      EmaSeriesReflected(c, closes, slow);
      var line := Differences(Ema(closes, fast), Ema(closes, slow));
      assert Differences(ReflectValues(c, Ema(closes, fast)), ReflectValues(c, Ema(closes, slow))) == Negate(line);
      EmaSeriesReflected(0.0, line, signal);
    }
  }

  lemma SlopeReflected(c: real, closes: seq<real>)
    requires |closes| >= 3
    ensures EmaSlope(ReflectValues(c, closes)) == -EmaSlope(closes)
  {
    hide EmaAt, SmoothingFactor;
    EmaSeriesReflected(c, closes, 20);
  }

  lemma TrueRangeReflected(c: real, prev: Candle, curr: Candle)
    ensures TrueRange(Reflect(c, prev), Reflect(c, curr)) == TrueRange(prev, curr)
  {
  }

  lemma TrueRangesReflected(c: real, candles: seq<Candle>, n: nat)
    requires n < |candles|
    ensures TrueRanges(ReflectAll(c, candles), n) == TrueRanges(candles, n)
  {
    forall i | 0 <= i < n ensures TrueRanges(ReflectAll(c, candles), n)[i] == TrueRanges(candles, n)[i] {
      TrueRangeReflected(c, candles[|candles| - n + i - 1], candles[|candles| - n + i]);
      hide TrueRange;
    }
  }

  lemma AtrReflected(c: real, candles: seq<Candle>)
    ensures Atr(ReflectAll(c, candles)) == Atr(candles)
  {
    if |candles| >= 15 {
      TrueRangesReflected(c, candles, 14);
    }
  }

  lemma GainsReflected(c: real, closes: seq<real>, n: nat)
    requires n < |closes|
    ensures Gains(ReflectValues(c, closes), n) == Losses(closes, n)
    ensures Losses(ReflectValues(c, closes), n) == Gains(closes, n)
  {
  }

  lemma RsiReflected(c: real, closes: seq<real>, period: nat)
    requires period > 0
    ensures Rsi(ReflectValues(c, closes), period) == 100.0 - Rsi(closes, period)
  {
    hide RsiOf, Average;
    if |closes| >= period + 1 {
      GainsReflected(c, closes, period);
      RsiSwapped(Average(Gains(closes, period)), Average(Losses(closes, period)));
    }
  }

  lemma RsiSwapped(gain: real, loss: real)
    requires gain >= 0.0 && loss >= 0.0
    ensures RsiOf(loss, gain) == 100.0 - RsiOf(gain, loss)
  {
    if gain > 0.0 && loss > 0.0 {
      RatioForm(gain, loss);
      RatioForm(loss, gain);
      QuotientReflected(100.0, 100.0 * loss, gain + loss);
      assert 100.0 * gain == (gain + loss) * 100.0 - 100.0 * loss;
    }
  }

  lemma RatioForm(gain: real, loss: real)
    requires gain > 0.0 && loss > 0.0
    ensures 100.0 / (1.0 + gain / loss) == 100.0 * loss / (gain + loss)
  {
    var r := gain / loss;
    assert r * loss == gain;
    assert (100.0 * loss) * (1.0 + r) == 100.0 * (gain + loss);
    EqualQuotients(100.0, 1.0 + r, 100.0 * loss, gain + loss);
  }

  lemma EqualQuotients(a: real, b: real, x: real, y: real)
    requires b > 0.0 && y > 0.0 && a * y == x * b
    ensures a / b == x / y
  {
    var p, q := a / b, x / y;
    assert p * b == a && q * y == x;
    assert (p - q) * (b * y) == 0.0;
  }

  lemma SquareOfNegation(x: real)
    ensures Times(-x, -x) == Times(x, x)
  {
  }

  lemma SquaredDeviationsReflected(c: real, s: seq<real>, mean: real)
    ensures SquaredDeviations(ReflectValues(c, s), c - mean) == SquaredDeviations(s, mean)
  {
    forall i | 0 <= i < |s|
      ensures SquaredDeviations(ReflectValues(c, s), c - mean)[i] == SquaredDeviations(s, mean)[i]
    {
      assert (c - s[i]) - (c - mean) == -(s[i] - mean);
      SquareOfNegation(s[i] - mean);
      hide Times;
    }
  }

  lemma PctBReflected(c: real, closes: seq<real>, period: nat, sqrt: real -> real)
    requires period > 0
    ensures PctB(ReflectValues(c, closes), period, sqrt) == 1.0 - PctB(closes, period, sqrt)
  {
    if |closes| >= period {
      var recent := Trading.LastN(closes, period);
      assert Trading.LastN(ReflectValues(c, closes), period) == ReflectValues(c, recent);
      MeanReflected(c, recent);
      SquaredDeviationsReflected(c, recent, Mean(recent));
      BandPositionReflected(c, recent[period - 1], Mean(recent),
                            2.0 * sqrt(Sum(SquaredDeviations(recent, Mean(recent))) / period as real));
      hide BandPosition, Mean, Sum;
    }
  }

  lemma BandPositionReflected(c: real, x: real, mean: real, half: real)
    ensures BandPosition(c - x, c - mean, half) == 1.0 - BandPosition(x, mean, half)
  {
    var width := mean + half - (mean - half);
    if width > 0.0000000001 {
      assert ((c - x) - (c - mean - half)) + (x - (mean - half)) == width;
      QuotientsAddUp((c - x) - (c - mean - half), x - (mean - half), width);
    }
  }

  lemma QuotientsAddUp(a: real, b: real, w: real)
    requires w > 0.0 && a + b == w
    ensures a / w == 1.0 - b / w
  {
    QuotientReflected(1.0, b, w);
  }

  lemma {:induction false} ExtremesReflected(c: real, bars: seq<Candle>)
    requires bars != []
    ensures MaxHigh(ReflectAll(c, bars)) == c - MinLow(bars)
    ensures MinLow(ReflectAll(c, bars)) == c - MaxHigh(bars)
  {
    if |bars| > 1 {
      var n := |bars| - 1;
      assert ReflectAll(c, bars)[..n] == ReflectAll(c, bars[..n]);
      ExtremesReflected(c, bars[..n]);
    }
  }

  lemma StochasticKReflected(c: real, x: real, hh: real, ll: real)
    ensures StochasticK(c - x, c - ll, c - hh) == 100.0 - StochasticK(x, hh, ll)
  {
    if hh > ll {
      assert ((c - x) - (c - hh)) + (x - ll) == hh - ll;
      QuotientsAddUp((c - x) - (c - hh), x - ll, hh - ll);
    }
  }

  lemma StochasticValuesReflected(c: real, candles: seq<Candle>, period: nat, smooth: nat)
    requires period > 0 && smooth > 0 && |candles| >= period + smooth
    ensures StochasticValues(ReflectAll(c, candles), period, smooth) == ReflectValues(100.0, StochasticValues(candles, period, smooth))
  {
    forall i | 0 <= i < smooth
      ensures StochasticValues(ReflectAll(c, candles), period, smooth)[i] == 100.0 - StochasticValues(candles, period, smooth)[i]
    {
      hide StochasticOf, StochasticWindow, Reflect;
      StochasticWindowReflected(c, candles, period, smooth, i);
      StochasticOfReflected(c, StochasticWindow(candles, period, smooth, i));
    }
  }

  lemma StochasticWindowReflected(c: real, candles: seq<Candle>, period: nat, smooth: nat, i: nat)
    requires period > 0 && i < smooth && |candles| >= period + smooth
    ensures StochasticWindow(ReflectAll(c, candles), period, smooth, i) == ReflectAll(c, StochasticWindow(candles, period, smooth, i))
  {
    hide Reflect;
  }

  lemma StochasticOfReflected(c: real, sub: seq<Candle>)
    requires sub != []
    ensures StochasticOf(ReflectAll(c, sub)) == 100.0 - StochasticOf(sub)
  {
    hide StochasticK, MaxHigh, MinLow;
    ExtremesReflected(c, sub);
    StochasticKReflected(c, sub[|sub| - 1].close, MaxHigh(sub), MinLow(sub));
  }

  lemma StochasticReflected(c: real, candles: seq<Candle>, period: nat, smooth: nat)
    requires period > 0 && smooth > 0
    ensures var s := Stochastic(candles, period, smooth);
            Stochastic(ReflectAll(c, candles), period, smooth) == (100.0 - s.0, 100.0 - s.1)
  {
    hide StochasticOf, Sum;
    if |candles| >= period + smooth {
      var k := StochasticValues(candles, period, smooth);
      StochasticValuesReflected(c, candles, period, smooth);
      SumReflected(100.0, k);
      QuotientReflected(100.0, Sum(k), smooth as real);
    }
  }

  lemma TypicalsReflected(c: real, bars: seq<Candle>)
    ensures Typicals(ReflectAll(c, bars)) == ReflectValues(c, Typicals(bars))
  {
    forall i | 0 <= i < |bars| ensures Typicals(ReflectAll(c, bars))[i] == c - Typicals(bars)[i] {
      assert ReflectAll(c, bars)[i] == Reflect(c, bars[i]);
    }
  }

  lemma CciReflected(c: real, candles: seq<Candle>, period: nat)
    requires period > 0
    ensures Cci(ReflectAll(c, candles), period) == -Cci(candles, period)
  {
    hide LastScaledDeviation;
    if |candles| >= period {
      var recent := Trading.LastN(candles, period);
      assert Trading.LastN(ReflectAll(c, candles), period) == ReflectAll(c, recent);
      TypicalsReflected(c, recent);
      LastScaledDeviationReflected(c, Typicals(recent));
    }
  }

  lemma LastScaledDeviationReflected(c: real, s: seq<real>)
    requires s != []
    ensures LastScaledDeviation(ReflectValues(c, s)) == -LastScaledDeviation(s)
  {
    hide Mean, MeanDeviation, ScaledDeviation;
    MeanReflected(c, s);
    MeanDeviationReflected(c, s);
    ScaledDeviationNegated(s[|s| - 1] - Mean(s), MeanDeviation(s));
    assert (c - s[|s| - 1]) - (c - Mean(s)) == -(s[|s| - 1] - Mean(s));
  }

  lemma MeanDeviationReflected(c: real, s: seq<real>)
    requires s != []
    ensures MeanDeviation(ReflectValues(c, s)) == MeanDeviation(s)
  {
    MeanReflected(c, s);
    hide Mean, Sum;
    assert Deviations(ReflectValues(c, s), c - Mean(s)) == Deviations(s, Mean(s));
  }

  lemma ScaledDeviationNegated(x: real, deviation: real)
    ensures ScaledDeviation(-x, deviation) == -ScaledDeviation(x, deviation)
  {
    if deviation > 0.0000000001 {
      QuotientNegated(x, 0.015 * deviation);
    }
  }

  lemma QuotientNegated(a: real, b: real)
    requires b != 0.0
    ensures (-a) / b == -(a / b)
  {
  }

  lemma MovesReflected(c: real, candles: seq<Candle>, n: nat)
    requires n < |candles|
    ensures UpMoves(ReflectAll(c, candles), n) == DownMoves(candles, n)
    ensures DownMoves(ReflectAll(c, candles), n) == UpMoves(candles, n)
  {
    forall i | 0 <= i < n
      ensures UpMoves(ReflectAll(c, candles), n)[i] == DownMoves(candles, n)[i]
      ensures DownMoves(ReflectAll(c, candles), n)[i] == UpMoves(candles, n)[i]
    {
      MoveReflected(c, candles[|candles| - n + i - 1], candles[|candles| - n + i]);
      hide UpMove, DownMove;
    }
  }

  lemma MoveReflected(c: real, prev: Candle, curr: Candle)
    ensures UpMove(Reflect(c, prev), Reflect(c, curr)) == DownMove(prev, curr)
    ensures DownMove(Reflect(c, prev), Reflect(c, curr)) == UpMove(prev, curr)
  {
  }

  lemma AdxReflected(c: real, candles: seq<Candle>, period: nat)
    ensures Adx(ReflectAll(c, candles), period) == Adx(candles, period)
  {
    hide DirectionalIndex, Sum;
    if |candles| >= period + 1 {
      TrueRangesReflected(c, candles, period);
      MovesReflected(c, candles, period);
      DirectionalIndexSwapped(Sum(TrueRanges(candles, period)), Sum(UpMoves(candles, period)), Sum(DownMoves(candles, period)));
    }
  }

  lemma DirectionalIndexSwapped(range: real, up: real, down: real)
    ensures DirectionalIndex(range, down, up) == DirectionalIndex(range, up, down)
  {
    if range > 0.0 {
      var a, b := up / range * 100.0, down / range * 100.0;
      assert Abs(a - b) == Abs(b - a) && a + b == b + a;
    }
  }

  lemma BarWeightsReflected(c: real, bars: seq<Candle>)
    ensures BarWeights(ReflectAll(c, bars)) == BarWeights(bars)
  {
  }

  lemma {:induction false} WeightedSumReflected(c: real, s: seq<real>, w: seq<real>)
    requires |s| == |w|
    ensures Sum(Products(ReflectValues(c, s), w)) == Times(c, Sum(w)) - Sum(Products(s, w))
  {
    hide Times;
    if s == [] {
      TimesAddition(c, 0.0, 0.0, 0.0);
    } else {
      var n := |s| - 1;
      assert Products(ReflectValues(c, s), w)[..n] == Products(ReflectValues(c, s[..n]), w[..n]);
      assert Products(s, w)[..n] == Products(s[..n], w[..n]);
      WeightedSumReflected(c, s[..n], w[..n]);
      TimesAddition(c, Sum(w[..n]), w[n], s[n]);
    }
  }

  lemma TimesAddition(c: real, v: real, w: real, x: real)
    ensures Times(c, v + w) == Times(c, v) + Times(c, w)
    ensures Times(c - x, w) == Times(c, w) - Times(x, w)
    ensures Times(c, 0.0) == 0.0
  {
  }

  lemma WeightedMeanReflected(c: real, bars: seq<Candle>)
    requires bars != []
    ensures WeightedMean(ReflectAll(c, bars)) == c - WeightedMean(bars)
  {
    TypicalsReflected(c, bars);
    BarWeightsReflected(c, bars);
    BarWeightsPositive(bars);
    WeightedSumReflected(c, Typicals(bars), BarWeights(bars));
    ShiftedQuotient(c, Sum(BarWeights(bars)), Sum(Products(Typicals(bars), BarWeights(bars))));
    hide Times, Sum;
  }

  lemma ShiftedQuotient(c: real, v: real, p: real)
    requires v > 0.0
    ensures (Times(c, v) - p) / v == c - p / v
  {
    QuotientReflected(c, p, v);
  }

  lemma BandsReflected(c: real, candles: seq<Candle>, sqrt: real -> real)
    requires candles != []
    ensures var b := SessionBands(candles, sqrt);
            SessionBands(ReflectAll(c, candles), sqrt) == Bands(c - b.vwap, c - b.lower, c - b.upper)
  {
    var bars := SessionBars(candles);
    assert SessionBars(ReflectAll(c, candles)) == ReflectAll(c, bars);
    WeightedMeanReflected(c, bars);
    TypicalsReflected(c, bars);
    BarWeightsReflected(c, bars);
    SquaredDeviationsReflected(c, Typicals(bars), WeightedMean(bars));
    assert WeightedVariance(ReflectAll(c, bars)) == WeightedVariance(bars) by {
      hide Sum, WeightedMean;
    }
    hide WeightedMean, WeightedVariance, Sum;
  }

  lemma AssembleReflected(c: real, bar: Candle, prev: Candle, atr: real, rsi: real, pctB: real, stoch: (real, real),
                          mHist: real, cci: real, adx: real, bands: Bands, slope: real)
    ensures Assemble(Reflect(c, bar), Reflect(c, prev), atr, 100.0 - rsi, 1.0 - pctB, (100.0 - stoch.0, 100.0 - stoch.1),
                     -mHist, -cci, adx, Bands(c - bands.vwap, c - bands.lower, c - bands.upper), -slope)
         == MirrorReadings(c, Assemble(bar, prev, atr, rsi, pctB, stoch, mHist, cci, adx, bands, slope))
  {
  }

  lemma IndicatorsReflected(c: real, candles: seq<Candle>, sqrt: real -> real)
    requires |candles| >= 30
    ensures var r, closes := ReflectAll(c, candles), Closes(candles);
            var closes' := Closes(r);
            && Atr(r) == Atr(candles) && Rsi(closes', 14) == 100.0 - Rsi(closes, 14)
            && PctB(closes', 14, sqrt) == 1.0 - PctB(closes, 14, sqrt)
            && Stochastic(r, 14, 3) == (100.0 - Stochastic(candles, 14, 3).0, 100.0 - Stochastic(candles, 14, 3).1)
            && MacdHistogram(closes', 7, 14, 5) == -MacdHistogram(closes, 7, 14, 5)
            && Cci(r, 14) == -Cci(candles, 14) && Adx(r, 14) == Adx(candles, 14)
            && SessionBands(r, sqrt) == Bands(c - SessionBands(candles, sqrt).vwap,
                                              c - SessionBands(candles, sqrt).lower, c - SessionBands(candles, sqrt).upper)
            && EmaSlope(closes') == -EmaSlope(closes)
  {
    hide *;
    var closes := Closes(candles);
    ClosesReflected(c, candles);
    AtrReflected(c, candles);
    RsiReflected(c, closes, 14);
    PctBReflected(c, closes, 14, sqrt);
    StochasticReflected(c, candles, 14, 3);
    MacdReflected(c, closes, 7, 14, 5);
    CciReflected(c, candles, 14);
    AdxReflected(c, candles, 14);
    BandsReflected(c, candles, sqrt);
    SlopeReflected(c, closes);
  }

  /** Every reading of a reflected candle list is the predicted mirror image. */
  lemma ReadingsReflected(c: real, candles: seq<Candle>, sqrt: real -> real)
    requires |candles| >= 30
    ensures Measure(ReflectAll(c, candles), sqrt) == MirrorReadings(c, Measure(candles, sqrt))
  {
    hide *;
    var candles' := ReflectAll(c, candles);
    var n, closes := |candles|, Closes(candles);
    IndicatorsReflected(c, candles, sqrt);
    MeasureFrom(candles, sqrt);
    MeasureFrom(candles', sqrt);
    assert candles'[n - 1] == Reflect(c, candles[n - 1]) && candles'[n - 2] == Reflect(c, candles[n - 2]);
    AssembleReflected(c, candles[n - 1], candles[n - 2], Atr(candles), Rsi(closes, 14), PctB(closes, 14, sqrt),
                      Stochastic(candles, 14, 3), MacdHistogram(closes, 7, 14, 5), Cci(candles, 14), Adx(candles, 14),
                      SessionBands(candles, sqrt), EmaSlope(closes));
  }

  // ---------- The decision ----------

  /** The session band whose crossing vetoes the given side, and whether the close has crossed it. */
  function VetoBand(r: Readings, signal: Side): real {
    if signal == CALL then r.vwapUpper else r.vwapLower
  }

  predicate BeyondBand(r: Readings, signal: Side) {
    if signal == CALL then r.close > r.vwapUpper else r.close < r.vwapLower
  }

  predicate ExhaustedByOscillators(r: Readings, signal: Side) {
    if signal == CALL then r.pctB >= 0.92 || r.rsi >= 70.0 else r.pctB <= 0.08 || r.rsi <= 30.0
  }

  /**
   The band test alone decides, and it comes out differently after reflection because the band
   that it compares against zero has changed its sign.
   */
  predicate BandSignMatters(c: real, r: Readings, signal: Side) {
    && (signal == CALL || signal == PUT)
    && !r.IsFlat()
    && !ExhaustedByOscillators(r, signal)
    && BeyondBand(r, signal)
    && (VetoBand(r, signal) > 0.0) != (c - VetoBand(r, signal) > 0.0)
  }

  lemma DecisionMirrors(c: real, r: Readings, signal: Side)
    ensures Decide(MirrorReadings(c, r), MirrorSide(signal)) == MirrorVerdict(Decide(r, signal))
       <==> !BandSignMatters(c, r, signal)
  {
    var m := MirrorReadings(c, r);
    assert m.IsFlat() == r.IsFlat() && m.IsDoji() == r.IsDoji();
  }

  /** Mirror symmetry holds exactly when the sign of a reflected session band is not what decides. */
  lemma MirrorSymmetry(c: real, candles: seq<Candle>, signal: Side, sqrt: real -> real)
    ensures OrganicVerdict(ReflectAll(c, candles), MirrorSide(signal), sqrt) == MirrorVerdict(OrganicVerdict(candles, signal, sqrt))
       <==> |candles| < 30 || !BandSignMatters(c, Measure(candles, sqrt), signal)
  {
    if |candles| >= 30 {
      ReadingsReflected(c, candles, sqrt);
      VerdictFrom(candles, signal, sqrt);
      VerdictFrom(ReflectAll(c, candles), MirrorSide(signal), sqrt);
      DecisionMirrors(c, Measure(candles, sqrt), signal);
      hide *;
    }
  }

  // ---------- Positive prices ----------

  /** Every bar lies between zero and c, with the close inside its range. */
  predicate PricesWithin(c: real, candles: seq<Candle>) {
    forall i :: 0 <= i < |candles| ==> 0.0 < candles[i].low <= candles[i].close <= candles[i].high < c
  }

  lemma {:induction false} WeightedSumWithin(c: real, s: seq<real>, w: seq<real>)
    requires |s| == |w| > 0
    requires forall i :: 0 <= i < |s| ==> 0.0 < s[i] < c && w[i] > 0.0
    ensures 0.0 < Sum(Products(s, w)) < Times(c, Sum(w))
  {
    var n := |s| - 1;
    assert Products(s, w)[..n] == Products(s[..n], w[..n]);
    WeightedTerm(c, s[n], w[n]);
    TimesAddition(c, Sum(w[..n]), w[n], 0.0);
    TimesAddition(c, 0.0, 0.0, 0.0);
    hide Times;
    if n > 0 {
      WeightedSumWithin(c, s[..n], w[..n]);
    }
  }

  lemma WeightedTerm(c: real, x: real, w: real)
    requires 0.0 < x < c && w > 0.0
    ensures 0.0 < Times(x, w) < Times(c, w)
  {
    assert x * w > 0.0 && (c - x) * w > 0.0;
  }

  lemma WeightedMeanWithin(c: real, bars: seq<Candle>)
    requires bars != [] && PricesWithin(c, bars)
    ensures 0.0 < WeightedMean(bars) < c
  {
    var t, w := Typicals(bars), BarWeights(bars);
    forall i | 0 <= i < |bars| ensures 0.0 < t[i] < c && w[i] > 0.0 {
      assert t[i] == Typical(bars[i]);
    }
    WeightedSumWithin(c, t, w);
    BarWeightsPositive(bars);
    QuotientWithin(c, Sum(Products(t, w)), Sum(w));
  }

  lemma QuotientWithin(c: real, p: real, v: real)
    requires v > 0.0 && 0.0 < p < Times(c, v)
    ensures 0.0 < p / v < c
  {
    var q := p / v;
    assert q * v == p;
    OrderTimes(0.0, q, v);
    OrderTimes(q, c, v);
  }

  lemma OrderTimes(x: real, y: real, v: real)
    requires v > 0.0
    ensures Times(x, v) < Times(y, v) <==> x < y
  {
    assert (y - x) * v == y * v - x * v;
  }

  lemma BandsAroundMean(c: real, candles: seq<Candle>, sqrt: real -> real)
    requires candles != [] && PricesWithin(c, candles) && forall x: real :: x > 0.0 ==> sqrt(x) >= 0.0
    ensures var b := SessionBands(candles, sqrt); b.upper > 0.0 && b.lower < c
  {
    var bars := SessionBars(candles);
    assert forall i :: 0 <= i < |bars| ==> bars[i] == candles[|candles| - |bars| + i];
    WeightedMeanWithin(c, bars);
    hide WeightedMean, WeightedVariance, SessionBars;
  }

  /**
   For every list of candles with positive prices, any c above all of them and any root that is not negative, reflecting
   the candles and swapping the sides mirrors the verdict, reason included.
   */
  lemma PricesMirror(c: real, candles: seq<Candle>, signal: Side, sqrt: real -> real)
    requires PricesWithin(c, candles) && forall x: real :: x > 0.0 ==> sqrt(x) >= 0.0
    ensures OrganicVerdict(ReflectAll(c, candles), MirrorSide(signal), sqrt) == MirrorVerdict(OrganicVerdict(candles, signal, sqrt))
  {
    MirrorSymmetry(c, candles, signal, sqrt);
    if |candles| >= 30 {
      MeasureFrom(candles, sqrt);
      BandsAroundMean(c, candles, sqrt);
      var last := candles[|candles| - 1];
      assert 0.0 < last.close < c;
      hide Measure, SessionBands, Atr, Rsi, PctB, Stochastic, MacdHistogram, Cci, Adx, EmaSlope, OrganicVerdict, ReflectAll;
    }
  }
}
