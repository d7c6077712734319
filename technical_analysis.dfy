/**
 * The indicator engine: MACD and KDJ series over a sequence of OHLCV bars.
 * Every series is index-aligned with the bars it is computed from.
 */
module TechnicalAnalysis {
  import opened Wrappers
  import Numeric

  /** One OHLCV sample; `day` is the bar's date as a day number. */
  datatype Bar = Bar(day: int, open: real, high: real, low: real, close: real, volume: real)

  /** A bar whose close lies between its low and its high. */
  predicate WellFormedBar(b: Bar) {
    b.low <= b.close <= b.high
  }

  function Closes(bars: seq<Bar>): (r: seq<real>)
    ensures |r| == |bars| && forall i :: 0 <= i < |bars| ==> r[i] == bars[i].close
  {
    seq(|bars|, i requires 0 <= i < |bars| => bars[i].close)
  }

  function Lows(bars: seq<Bar>): (r: seq<real>)
    ensures |r| == |bars| && forall i :: 0 <= i < |bars| ==> r[i] == bars[i].low
  {
    seq(|bars|, i requires 0 <= i < |bars| => bars[i].low)
  }

  function Highs(bars: seq<Bar>): (r: seq<real>)
    ensures |r| == |bars| && forall i :: 0 <= i < |bars| ==> r[i] == bars[i].high
  {
    seq(|bars|, i requires 0 <= i < |bars| => bars[i].high)
  }

  // ---------------------------------------------------------------- MACD

  const FastPeriod: nat := 12
  const SlowPeriod: nat := 26
  const SignalPeriod: nat := 9

  /**
   * pandas' `series.ewm(span).mean()`, whose weighting is not part of this
   * model: the engine only relies on it returning one value per input value.
   */
  type Ema = (seq<real>, nat) -> seq<real>

  ghost predicate LengthPreserving(ema: Ema) {
    forall xs: seq<real>, span: nat :: |ema(xs, span)| == |xs|
  }

  /** The last MACD values, rounded to four decimals. */
  datatype MacdLatest = MacdLatest(macd: real, signal: real, histogram: real)

  datatype Macd = Macd(
    fastPeriod: nat, slowPeriod: nat, signalPeriod: nat,
    line: seq<real>, signal: seq<real>, histogram: seq<real>,
    latest: MacdLatest)

  /**
   * `calculate_macd`: an error for an empty input or fewer bars than the slow
   * period; otherwise the MACD line (fast EMA minus slow EMA of the closes), its
   * signal line (an EMA of the MACD line) and the histogram (line minus signal).
   */
  function CalculateMacd(bars: seq<Bar>, ema: Ema, fast: nat := FastPeriod, slow: nat := SlowPeriod,
                         signalPeriod: nat := SignalPeriod): (r: Result<Macd>)
    requires LengthPreserving(ema)
    ensures r.Err? <==> |bars| == 0 || |bars| < slow
    ensures r.Ok? ==>
      var m := r.value;
      && |m.line| == |m.signal| == |m.histogram| == |bars|
      && (forall i :: 0 <= i < |bars| ==>
            m.line[i] == ema(Closes(bars), fast)[i] - ema(Closes(bars), slow)[i])
      && m.signal == ema(m.line, signalPeriod)
      && (forall i :: 0 <= i < |bars| ==> m.histogram[i] == m.line[i] - m.signal[i])
  {
    if |bars| == 0 || |bars| < slow then Err("Insufficient data for MACD calculation")
    else
      var closes := Closes(bars);
      var emaFast := ema(closes, fast);
      var emaSlow := ema(closes, slow);
      var line := seq(|bars|, i requires 0 <= i < |bars| => emaFast[i] - emaSlow[i]);
      var signal := ema(line, signalPeriod);
      var histogram := seq(|bars|, i requires 0 <= i < |bars| => line[i] - signal[i]);
      var last := |bars| - 1;
      Ok(Macd(fast, slow, signalPeriod, line, signal, histogram,
              MacdLatest(Numeric.Round4(line[last]), Numeric.Round4(signal[last]),
                         Numeric.Round4(histogram[last]))))
  }

  /** The histogram is positive exactly where the MACD line is above its signal line. */
  lemma HistogramSign(bars: seq<Bar>, ema: Ema, i: nat)
    requires LengthPreserving(ema)
    requires CalculateMacd(bars, ema).Ok? && i < |bars|
    ensures var m := CalculateMacd(bars, ema).value;
      (m.histogram[i] > 0.0 <==> m.line[i] > m.signal[i]) &&
      (m.histogram[i] < 0.0 <==> m.line[i] < m.signal[i])
  {
  }

  // ---------------------------------------------------------------- KDJ

  const KPeriod: nat := 9

  /** The first bar of the trailing window of `min(i + 1, k)` bars that ends at bar `i`. */
  function WindowStart(i: nat, k: nat): (s: nat)
    requires k >= 1
    ensures s <= i && i + 1 - s == if i + 1 < k then i + 1 else k
  {
    if i + 1 >= k then i + 1 - k else 0
  }

  /** `(close - lowMin) / range * 100`, with a zero high-low range replaced by 1. */
  function Stochastic(close: real, lowMin: real, highMax: real): real {
    var denominator := if highMax - lowMin == 0.0 then 1.0 else highMax - lowMin;
    (close - lowMin) / denominator * 100.0
  }

  /** A close between the window's extremes gives a value between 0 and 100. */
  lemma StochasticBounded(close: real, lowMin: real, highMax: real)
    requires lowMin <= close <= highMax
    ensures 0.0 <= Stochastic(close, lowMin, highMax) <= 100.0
  {
    if highMax - lowMin != 0.0 {
      var den := highMax - lowMin;
      var num := close - lowMin;
      assert 0.0 <= num / den <= 1.0 by {
        assert num / den * den == num;
      }
    }
  }

  /** A window whose highest high equals its lowest low divides by 1 instead of by 0. */
  lemma FlatRangeStochastic(close: real, lowMin: real, highMax: real)
    requires highMax == lowMin
    ensures Stochastic(close, lowMin, highMax) == (close - lowMin) * 100.0
  {
  }

  /** The raw stochastic value of bar `i` over its trailing window of lows and highs. */
  function Rsv(bars: seq<Bar>, k: nat, i: nat): real
    requires k >= 1 && i < |bars|
  {
    var lowMin := Numeric.Min(Lows(bars)[WindowStart(i, k)..i + 1]);
    var highMax := Numeric.Max(Highs(bars)[WindowStart(i, k)..i + 1]);
    Stochastic(bars[i].close, lowMin, highMax)
  }

  function RsvSeries(bars: seq<Bar>, k: nat): (r: seq<real>)
    requires k >= 1
    ensures |r| == |bars| && forall i :: 0 <= i < |bars| ==> r[i] == Rsv(bars, k, i)
  {
    seq(|bars|, i requires 0 <= i < |bars| => Rsv(bars, k, i))
  }

  /** K: seeded with 50 at the first bar, then two thirds of the previous K plus a third of RSV. */
  function KAt(rsv: seq<real>, i: nat): real
    requires i < |rsv|
  {
    if i == 0 then 50.0 else 2.0 / 3.0 * KAt(rsv, i - 1) + 1.0 / 3.0 * rsv[i]
  }

  /** D: seeded with 50 at the first bar, then two thirds of the previous D plus a third of K. */
  function DAt(rsv: seq<real>, i: nat): real
    requires i < |rsv|
  {
    if i == 0 then 50.0 else 2.0 / 3.0 * DAt(rsv, i - 1) + 1.0 / 3.0 * KAt(rsv, i)
  }

  /** The last KDJ values, rounded to two decimals. */
  datatype KdjLatest = KdjLatest(k: real, d: real, j: real)

  datatype Kdj = Kdj(kPeriod: nat, k: seq<real>, d: seq<real>, j: seq<real>, latest: KdjLatest)

  function KdjLatestOf(k: seq<real>, d: seq<real>, j: seq<real>): KdjLatest
    requires |k| > 0 && |d| > 0 && |j| > 0
  {
    KdjLatest(Numeric.Round2(k[|k| - 1]), Numeric.Round2(d[|d| - 1]), Numeric.Round2(j[|j| - 1]))
  }

  /**
   * The K, D and J series of an RSV series: K and D seeded with 50 at its first
   * value, then two thirds of the previous value plus one third of the current
   * one (RSV for K, the new K for D), and J = 3K - 2D, index by index.
   */
  function Smooth(rsv: seq<real>): (r: (seq<real>, seq<real>, seq<real>))
    requires |rsv| > 0
    ensures var (k, d, j) := r;
      && |k| == |d| == |j| == |rsv|
      && k[0] == 50.0 && d[0] == 50.0
      && (forall i :: 0 <= i < |rsv| ==> j[i] == 3.0 * k[i] - 2.0 * d[i])
  {
    var n := |rsv|;
    var k := KSeries(rsv);
    var d := DSeries(rsv);
    var j := seq(n, i requires 0 <= i < n => 3.0 * k[i] - 2.0 * d[i]);
    (k, d, j)
  }

  /** The K value of every bar: 50 at the first, then the 2/3 - 1/3 blend of the previous K and the RSV. */
  function KSeries(rsv: seq<real>): (k: seq<real>)
    ensures |k| == |rsv| && forall i :: 0 <= i < |rsv| ==> k[i] == KAt(rsv, i)
    ensures |rsv| > 0 ==> k[0] == 50.0
    ensures forall i :: 0 < i < |rsv| ==> k[i] == 2.0 / 3.0 * k[i - 1] + 1.0 / 3.0 * rsv[i]
  {
    seq(|rsv|, i requires 0 <= i < |rsv| => KAt(rsv, i))
  }

  /** The D value of every bar: 50 at the first, then the 2/3 - 1/3 blend of the previous D and the new K. */
  function DSeries(rsv: seq<real>): (d: seq<real>)
    ensures |d| == |rsv| && forall i :: 0 <= i < |rsv| ==> d[i] == DAt(rsv, i)
    ensures |rsv| > 0 ==> d[0] == 50.0
    ensures forall i :: 0 < i < |rsv| ==> d[i] == 2.0 / 3.0 * d[i - 1] + 1.0 / 3.0 * KSeries(rsv)[i]
  {
    seq(|rsv|, i requires 0 <= i < |rsv| => DAt(rsv, i))
  }

  /**
   * After the first bar, K is two thirds of the previous K plus a third of the
   * bar's RSV, and D two thirds of the previous D plus a third of the new K.
   */
  lemma SmoothRecurrence(rsv: seq<real>, i: nat)
    requires 0 < i < |rsv|
    ensures var (k, d, j) := Smooth(rsv);
      && k[i] == 2.0 / 3.0 * k[i - 1] + 1.0 / 3.0 * rsv[i]
      && d[i] == 2.0 / 3.0 * d[i - 1] + 1.0 / 3.0 * k[i]
  {
  }

  /**
   * What `calculate_kdj` returns: an error for an empty input or fewer bars than
   * `kPeriod`; otherwise the smoothed series of the bars' RSV values. RSV is
   * defined at every bar here, so the seed of 50 sits at the first bar.
   */
  function KdjOf(bars: seq<Bar>, kPeriod: nat := KPeriod): (r: Result<Kdj>)
    requires kPeriod >= 1
    ensures r.Err? <==> |bars| == 0 || |bars| < kPeriod
    ensures r.Ok? ==>
      && (r.value.k, r.value.d, r.value.j) == Smooth(RsvSeries(bars, kPeriod))
      && |r.value.k| == |r.value.d| == |r.value.j| == |bars|
  {
    if |bars| == 0 || |bars| < kPeriod then Err("Insufficient data for KDJ calculation")
    else
      var (k, d, j) := Smooth(RsvSeries(bars, kPeriod));
      Ok(Kdj(kPeriod, k, d, j, KdjLatestOf(k, d, j)))
  }

  /** Sequences holding K and D at every bar are the K and D series. */
  lemma SeriesOfValues(rsv: seq<real>, k: seq<real>, d: seq<real>)
    requires |k| == |rsv| && forall t :: 0 <= t < |rsv| ==> k[t] == KAt(rsv, t)
    requires |d| == |rsv| && forall t :: 0 <= t < |rsv| ==> d[t] == DAt(rsv, t)
    ensures k == KSeries(rsv) && d == DSeries(rsv)
  {
  }

  /**
   * The smoothing loop of `calculate_kdj`: writes K and D into arrays bar by
   * bar, each from the previous bar's value, the way the source writes
   * `k_values` and `d_values` in place.
   */
  method SmoothInPlace(rsv: seq<real>) returns (k: seq<real>, d: seq<real>)
    requires |rsv| > 0
    ensures k == KSeries(rsv) && d == DSeries(rsv)
  {
    var n := |rsv|;
    var kValues := new real[n];
    var dValues := new real[n];
    kValues[0] := 50.0;
    dValues[0] := 50.0;
    for i := 1 to n
      invariant forall t :: 0 <= t < i ==> kValues[t] == KAt(rsv, t) && dValues[t] == DAt(rsv, t)
    {
      kValues[i] := 2.0 / 3.0 * kValues[i - 1] + 1.0 / 3.0 * rsv[i];
      dValues[i] := 2.0 / 3.0 * dValues[i - 1] + 1.0 / 3.0 * kValues[i];
    }
    k := kValues[..];
    d := dValues[..];
    SeriesOfValues(rsv, k, d);
  }

  /** `calculate_kdj`: the length gate, the RSV series, the smoothing loop and J = 3K - 2D. */
  method CalculateKdj(bars: seq<Bar>, kPeriod: nat := KPeriod) returns (r: Result<Kdj>)
    requires kPeriod >= 1
    ensures r == KdjOf(bars, kPeriod)
  {
    if |bars| == 0 || |bars| < kPeriod {
      return Err("Insufficient data for KDJ calculation");
    }
    var rsv := RsvSeries(bars, kPeriod);
    var k, d := SmoothInPlace(rsv);
    var n := |bars|;
    var j := seq(n, i requires 0 <= i < n => 3.0 * k[i] - 2.0 * d[i]);
    assert (k, d, j) == Smooth(rsv);
    r := Ok(Kdj(kPeriod, k, d, j, KdjLatestOf(k, d, j)));
  }

  /** On well-formed bars every raw stochastic value lies between 0 and 100. */
  lemma RsvBounded(bars: seq<Bar>, k: nat, i: nat)
    requires k >= 1 && i < |bars|
    requires forall t :: 0 <= t < |bars| ==> WellFormedBar(bars[t])
    ensures 0.0 <= Rsv(bars, k, i) <= 100.0
  {
    var s := WindowStart(i, k);
    var lows := Lows(bars)[s..i + 1];
    var highs := Highs(bars)[s..i + 1];
    assert lows[i - s] == bars[i].low && highs[i - s] == bars[i].high;
    StochasticBounded(bars[i].close, Numeric.Min(lows), Numeric.Max(highs));
  }

  /** K and D stay between 0 and 100 when every RSV value does. */
  lemma {:induction false} SmoothingBounded(rsv: seq<real>, i: nat)
    requires i < |rsv|
    requires forall t :: 0 <= t < |rsv| ==> 0.0 <= rsv[t] <= 100.0
    ensures 0.0 <= KAt(rsv, i) <= 100.0 && 0.0 <= DAt(rsv, i) <= 100.0
  {
    if i > 0 {
      SmoothingBounded(rsv, i - 1);
    }
  }

  /** RSV values in [0, 100] give K and D in [0, 100] and J in [-200, 300]. */
  lemma SmoothBounded(rsv: seq<real>, i: nat)
    requires i < |rsv|
    requires forall t :: 0 <= t < |rsv| ==> 0.0 <= rsv[t] <= 100.0
    ensures var (k, d, j) := Smooth(rsv);
      0.0 <= k[i] <= 100.0 && 0.0 <= d[i] <= 100.0 && -200.0 <= j[i] <= 300.0
  {
    SmoothingBounded(rsv, i);
  }

  /** On well-formed bars K and D lie in [0, 100] and J = 3K - 2D in [-200, 300]. */
  lemma KdjBounded(bars: seq<Bar>, kPeriod: nat, i: nat)
    requires kPeriod >= 1 && KdjOf(bars, kPeriod).Ok? && i < |bars|
    requires forall t :: 0 <= t < |bars| ==> WellFormedBar(bars[t])
    ensures var x := KdjOf(bars, kPeriod).value;
      0.0 <= x.k[i] <= 100.0 && 0.0 <= x.d[i] <= 100.0 && -200.0 <= x.j[i] <= 300.0
  {
    var rsv := RsvSeries(bars, kPeriod);
    forall t | 0 <= t < |rsv| ensures 0.0 <= rsv[t] <= 100.0 {
      RsvBounded(bars, kPeriod, t);
    }
    SmoothBounded(rsv, i);
  }

  datatype Indicators = Indicators(macd: Result<Macd>, kdj: Result<Kdj>)

  /** `calculate_all`: an error for an empty input, otherwise both indicators' own results. */
  function CalculateAll(bars: seq<Bar>, ema: Ema): (r: Result<Indicators>)
    requires LengthPreserving(ema)
    ensures r.Err? <==> |bars| == 0
    ensures r.Ok? ==> r.value.macd == CalculateMacd(bars, ema) && r.value.kdj == KdjOf(bars)
    ensures r.Ok? && |bars| < KPeriod ==> r.value.macd.Err? && r.value.kdj.Err?
  {
    if |bars| == 0 then Err("No data provided for analysis")
    else Ok(Indicators(CalculateMacd(bars, ema), KdjOf(bars)))
  }

  /** `get_macd_histogram_series`: the histogram, or nothing exactly when MACD fails. */
  function GetMacdHistogramSeries(bars: seq<Bar>, ema: Ema): (r: Option<seq<real>>)
    requires LengthPreserving(ema)
    ensures r.None? <==> |bars| < SlowPeriod
    ensures r.Some? ==> |r.value| == |bars| && r.value == CalculateMacd(bars, ema).value.histogram
  {
    var m := CalculateMacd(bars, ema);
    if m.Err? then None else Some(m.value.histogram)
  }

  /** `get_kdj_series`: the (K, D, J) series, or nothing exactly when KDJ fails. */
  function GetKdjSeries(bars: seq<Bar>): (r: Option<(seq<real>, seq<real>, seq<real>)>)
    ensures r.None? <==> |bars| < KPeriod
    ensures r.Some? ==>
      var x := KdjOf(bars).value;
      r.value == (x.k, x.d, x.j) && |r.value.0| == |r.value.1| == |bars|
  {
    var x := KdjOf(bars);
    if x.Err? then None else Some((x.value.k, x.value.d, x.value.j))
  }
}
