/**
 * The signal detector: per-bar buy and sell rules over the MACD histogram and
 * the KDJ K and D series, the whole-series signal lists, and the resolution of
 * the last bar into a single BUY, SELL or HOLD with its explanation.
 */
module SignalDetector {
  import opened Wrappers
  import Strings
  import Numeric
  import opened TechnicalAnalysis

  datatype SignalType = Buy | Sell | Hold

  const KdjBuyThreshold: real := 20.0
  const KdjSellThreshold: real := 80.0

  /** An indicator series in which a value may be undefined (NaN). */
  type Series = seq<Option<real>>

  /** Indicator names are compared after lower-casing. */
  predicate Names(indicator: string, name: string) {
    Strings.Lower(indicator) == name
  }

  /**
   * `_check_buy_signal`. MACD: the histogram crosses from below zero at the
   * previous bar to above zero at this one (never at the first bar). KDJ: K and D
   * are both strictly below the threshold, 20 unless one is given. Any other
   * indicator name, or an undefined value, gives no signal.
   */
  function CheckBuySignal(index: nat, indicator: string, h: Series, k: Series, d: Series,
                          threshold: Option<real>): (b: bool)
    requires index < |h| && index < |k| && index < |d|
    ensures Names(indicator, "macd") ==>
      (b <==> index >= 1 && h[index - 1].Some? && h[index].Some? &&
              h[index - 1].value < 0.0 && h[index].value > 0.0)
    ensures Names(indicator, "kdj") ==>
      (b <==> k[index].Some? && d[index].Some? &&
              k[index].value < threshold.GetOr(KdjBuyThreshold) &&
              d[index].value < threshold.GetOr(KdjBuyThreshold))
    ensures !Names(indicator, "macd") && !Names(indicator, "kdj") ==> !b
  {
    if Strings.Lower(indicator) == "macd" then
      if index < 1 then false
      else
        var yesterday := h[index - 1];
        var today := h[index];
        if yesterday.None? || today.None? then false
        else yesterday.value < 0.0 && today.value > 0.0
    else if Strings.Lower(indicator) == "kdj" then
      var kValue := k[index];
      var dValue := d[index];
      if kValue.None? || dValue.None? then false
      else
        var thresh := threshold.GetOr(KdjBuyThreshold);
        kValue.value < thresh && dValue.value < thresh
    else false
  }

  /**
   * `_check_sell_signal`. MACD (peak detection): the histogram rose from two bars
   * back to the previous bar, fell from the previous bar to this one, and the
   * previous bar is above zero (never before the third bar). KDJ: K and D are
   * both strictly above the threshold, 80 unless one is given.
   */
  function CheckSellSignal(index: nat, indicator: string, h: Series, k: Series, d: Series,
                           threshold: Option<real>): (b: bool)
    requires index < |h| && index < |k| && index < |d|
    ensures Names(indicator, "macd") ==>
      (b <==> index >= 2 && h[index - 2].Some? && h[index - 1].Some? && h[index].Some? &&
              h[index - 2].value < h[index - 1].value && h[index - 1].value > h[index].value &&
              h[index - 1].value > 0.0)
    ensures Names(indicator, "kdj") ==>
      (b <==> k[index].Some? && d[index].Some? &&
              k[index].value > threshold.GetOr(KdjSellThreshold) &&
              d[index].value > threshold.GetOr(KdjSellThreshold))
    ensures !Names(indicator, "macd") && !Names(indicator, "kdj") ==> !b
  {
    if Strings.Lower(indicator) == "macd" then
      if index < 2 then false
      else
        var dayBeforeYesterday := h[index - 2];
        var yesterday := h[index - 1];
        var today := h[index];
        if dayBeforeYesterday.None? || yesterday.None? || today.None? then false
        else
          var wasRising := dayBeforeYesterday.value < yesterday.value;
          var nowDeclining := yesterday.value > today.value;
          var inPositiveTerritory := yesterday.value > 0.0;
          wasRising && nowDeclining && inPositiveTerritory
    else if Strings.Lower(indicator) == "kdj" then
      var kValue := k[index];
      var dValue := d[index];
      if kValue.None? || dValue.None? then false
      else
        var thresh := threshold.GetOr(KdjSellThreshold);
        kValue.value > thresh && dValue.value > thresh
    else false
  }

  /** Both rules read the indicator name only through its lower-case form. */
  lemma NamesAreCaseInsensitive(index: nat, indicator: string, h: Series, k: Series, d: Series,
                                threshold: Option<real>)
    requires index < |h| && index < |k| && index < |d|
    ensures CheckBuySignal(index, indicator, h, k, d, threshold) ==
            CheckBuySignal(index, Strings.Lower(indicator), h, k, d, threshold)
    ensures CheckSellSignal(index, indicator, h, k, d, threshold) ==
            CheckSellSignal(index, Strings.Lower(indicator), h, k, d, threshold)
  {
    Strings.LowerIdempotent(indicator);
  }

  /** With MACD driving both sides, no bar carries a buy and a sell signal at once. */
  lemma MacdBuyAndSellExclusive(index: nat, h: Series, k: Series, d: Series,
                                buyThreshold: Option<real>, sellThreshold: Option<real>)
    requires index < |h| && index < |k| && index < |d|
    ensures !(CheckBuySignal(index, "macd", h, k, d, buyThreshold) &&
              CheckSellSignal(index, "macd", h, k, d, sellThreshold))
  {
    assert Names("macd", "macd");
  }

  /** A MACD peak is confirmed after exactly one falling bar, so sells never fire on two bars in a row. */
  lemma MacdSellsNotConsecutive(index: nat, h: Series, k: Series, d: Series, threshold: Option<real>)
    requires index + 1 < |h| && index + 1 < |k| && index + 1 < |d|
    ensures !(CheckSellSignal(index, "macd", h, k, d, threshold) &&
              CheckSellSignal(index + 1, "macd", h, k, d, threshold))
  {
    assert Names("macd", "macd");
  }

  /** With KDJ on both sides and a buy threshold no higher than the sell threshold, no bar carries both. */
  lemma KdjBuyAndSellExclusive(index: nat, h: Series, k: Series, d: Series,
                               buyThreshold: Option<real>, sellThreshold: Option<real>)
    requires index < |h| && index < |k| && index < |d|
    requires buyThreshold.GetOr(KdjBuyThreshold) <= sellThreshold.GetOr(KdjSellThreshold)
    ensures !(CheckBuySignal(index, "kdj", h, k, d, buyThreshold) &&
              CheckSellSignal(index, "kdj", h, k, d, sellThreshold))
  {
    assert Names("kdj", "kdj");
  }

  // ------------------------------------------------------------ whole series

  function Defined(xs: seq<real>): (r: Series)
    ensures |r| == |xs| && forall i :: 0 <= i < |xs| ==> r[i] == Some(xs[i])
  {
    seq(|xs|, i requires 0 <= i < |xs| => Some(xs[i]))
  }

  function Undefined(n: nat): (r: Series)
    ensures |r| == n && forall i :: 0 <= i < n ==> r[i] == None
  {
    seq(n, i => None)
  }

  /** The histogram the rules read: all undefined when MACD fails. */
  function HistogramInput(bars: seq<Bar>, ema: Ema): (h: Series)
    requires LengthPreserving(ema)
    ensures |h| == |bars|
    ensures |bars| < SlowPeriod ==> forall i :: 0 <= i < |bars| ==> h[i].None?
    ensures |bars| >= SlowPeriod ==>
      forall i :: 0 <= i < |bars| ==> h[i] == Some(CalculateMacd(bars, ema).value.histogram[i])
  {
    match GetMacdHistogramSeries(bars, ema)
    case None => Undefined(|bars|)
    case Some(histogram) => Defined(histogram)
  }

  /** The K series the rules read: all undefined when KDJ fails. */
  function KInput(bars: seq<Bar>): (k: Series)
    ensures |k| == |bars|
    ensures |bars| < KPeriod ==> forall i :: 0 <= i < |bars| ==> k[i].None?
    ensures |bars| >= KPeriod ==> forall i :: 0 <= i < |bars| ==> k[i] == Some(KdjOf(bars).value.k[i])
  {
    match GetKdjSeries(bars)
    case None => Undefined(|bars|)
    case Some((k, _, _)) => Defined(k)
  }

  /** The D series the rules read: all undefined when KDJ fails. */
  function DInput(bars: seq<Bar>): (d: Series)
    ensures |d| == |bars|
    ensures |bars| < KPeriod ==> forall i :: 0 <= i < |bars| ==> d[i].None?
    ensures |bars| >= KPeriod ==> forall i :: 0 <= i < |bars| ==> d[i] == Some(KdjOf(bars).value.d[i])
  {
    match GetKdjSeries(bars)
    case None => Undefined(|bars|)
    case Some((_, d, _)) => Defined(d)
  }

  function Flag(b: bool): int { if b then 1 else 0 }

  /** The 0/1 list of a buy rule over given series, one entry per bar. */
  function BuyFlagsOver(indicator: string, h: Series, k: Series, d: Series, threshold: Option<real>): (r: seq<int>)
    requires |k| == |h| && |d| == |h|
    ensures |r| == |h|
  {
    seq(|h|, i requires 0 <= i < |h| => Flag(CheckBuySignal(i, indicator, h, k, d, threshold)))
  }

  /** The 0/1 list of a sell rule over given series, one entry per bar. */
  function SellFlagsOver(indicator: string, h: Series, k: Series, d: Series, threshold: Option<real>): (r: seq<int>)
    requires |k| == |h| && |d| == |h|
    ensures |r| == |h|
  {
    seq(|h|, i requires 0 <= i < |h| => Flag(CheckSellSignal(i, indicator, h, k, d, threshold)))
  }

  /** The 0/1 buy list that `generate_signals` returns, one entry per bar. */
  function BuyFlags(bars: seq<Bar>, ema: Ema, indicator: string, threshold: Option<real>): (r: seq<int>)
    requires LengthPreserving(ema)
    ensures |r| == |bars|
  {
    BuyFlagsOver(indicator, HistogramInput(bars, ema), KInput(bars), DInput(bars), threshold)
  }

  /** The 0/1 sell list that `generate_signals` returns, one entry per bar. */
  function SellFlags(bars: seq<Bar>, ema: Ema, indicator: string, threshold: Option<real>): (r: seq<int>)
    requires LengthPreserving(ema)
    ensures |r| == |bars|
  {
    SellFlagsOver(indicator, HistogramInput(bars, ema), KInput(bars), DInput(bars), threshold)
  }

  /**
   * `generate_signals`: evaluates the buy rule and the sell rule independently at
   * every bar and appends a 0 or a 1 to each list, so a bar may carry both.
   */
  method GenerateSignals(bars: seq<Bar>, ema: Ema, buyIndicator: string, sellIndicator: string,
                         buyThreshold: Option<real>, sellThreshold: Option<real>)
    returns (buySignals: seq<int>, sellSignals: seq<int>)
    requires LengthPreserving(ema)
    ensures buySignals == BuyFlags(bars, ema, buyIndicator, buyThreshold)
    ensures sellSignals == SellFlags(bars, ema, sellIndicator, sellThreshold)
  {
    var macdHistogram := HistogramInput(bars, ema);
    var kdjK := KInput(bars);
    var kdjD := DInput(bars);
    buySignals, sellSignals := EvaluateRules(macdHistogram, kdjK, kdjD, buyIndicator, sellIndicator, buyThreshold, sellThreshold);
  }

  /** The per-bar loop of `generate_signals` over the calculated series. */
  method EvaluateRules(macdHistogram: Series, kdjK: Series, kdjD: Series, buyIndicator: string, sellIndicator: string,
                       buyThreshold: Option<real>, sellThreshold: Option<real>)
    returns (buySignals: seq<int>, sellSignals: seq<int>)
    requires |kdjK| == |macdHistogram| && |kdjD| == |macdHistogram|
    ensures buySignals == BuyFlagsOver(buyIndicator, macdHistogram, kdjK, kdjD, buyThreshold)
    ensures sellSignals == SellFlagsOver(sellIndicator, macdHistogram, kdjK, kdjD, sellThreshold)
  {
    buySignals, sellSignals := [], [];
    for i := 0 to |macdHistogram|
      invariant |buySignals| == i && |sellSignals| == i
      invariant forall t :: 0 <= t < i ==>
        buySignals[t] == Flag(CheckBuySignal(t, buyIndicator, macdHistogram, kdjK, kdjD, buyThreshold)) &&
        sellSignals[t] == Flag(CheckSellSignal(t, sellIndicator, macdHistogram, kdjK, kdjD, sellThreshold))
    {
      var buySignal := CheckBuySignal(i, buyIndicator, macdHistogram, kdjK, kdjD, buyThreshold);
      var sellSignal := CheckSellSignal(i, sellIndicator, macdHistogram, kdjK, kdjD, sellThreshold);
      buySignals := buySignals + [if buySignal then 1 else 0];
      sellSignals := sellSignals + [if sellSignal then 1 else 0];
    }
  }

  /** Each list entry is 0 or 1, and it is 1 exactly when the rule fires at that bar. */
  lemma FlagsMeaning(bars: seq<Bar>, ema: Ema, buyIndicator: string, sellIndicator: string,
                     buyThreshold: Option<real>, sellThreshold: Option<real>, i: nat)
    requires LengthPreserving(ema) && i < |bars|
    ensures var buys := BuyFlags(bars, ema, buyIndicator, buyThreshold);
      var sells := SellFlags(bars, ema, sellIndicator, sellThreshold);
      var h, k, d := HistogramInput(bars, ema), KInput(bars), DInput(bars);
      && (buys[i] == 0 || buys[i] == 1) && (sells[i] == 0 || sells[i] == 1)
      && (buys[i] == 1 <==> CheckBuySignal(i, buyIndicator, h, k, d, buyThreshold))
      && (sells[i] == 1 <==> CheckSellSignal(i, sellIndicator, h, k, d, sellThreshold))
  {
  }

  /** When the indicator a side uses cannot be calculated, that side never signals. */
  lemma FailedIndicatorNeverSignals(bars: seq<Bar>, ema: Ema, indicator: string, i: nat,
                                    buyThreshold: Option<real>, sellThreshold: Option<real>)
    requires LengthPreserving(ema) && i < |bars|
    requires (Names(indicator, "macd") && |bars| < SlowPeriod) || (Names(indicator, "kdj") && |bars| < KPeriod)
    ensures BuyFlags(bars, ema, indicator, buyThreshold)[i] == 0
    ensures SellFlags(bars, ema, indicator, sellThreshold)[i] == 0
  {
  }

  /** On the MACD histogram, a buy is a crossing of the MACD line above its signal line. */
  lemma MacdBuyIsSignalLineCrossing(bars: seq<Bar>, ema: Ema, i: nat, threshold: Option<real>)
    requires LengthPreserving(ema) && CalculateMacd(bars, ema).Ok? && i < |bars|
    ensures var m := CalculateMacd(bars, ema).value;
      BuyFlags(bars, ema, "macd", threshold)[i] == 1 <==>
        i >= 1 && m.line[i - 1] < m.signal[i - 1] && m.line[i] > m.signal[i]
  {
    var m := CalculateMacd(bars, ema).value;
    var h := HistogramInput(bars, ema);
    assert Names("macd", "macd");
    FlagsMeaning(bars, ema, "macd", "macd", threshold, threshold, i);
    assert h[i] == Some(m.histogram[i]);
    HistogramSign(bars, ema, i);
    if i >= 1 {
      assert h[i - 1] == Some(m.histogram[i - 1]);
      HistogramSign(bars, ema, i - 1);
    }
  }

  // ------------------------------------------------------------ current signal

  /** The rounded indicator values returned with a current signal; `NoValues` is the empty dictionary. */
  datatype Snapshot =
    | NoValues
    | Values(histogramToday: real, histogramYesterday: real, kdjK: real, kdjD: real,
             histogramDayBefore: Option<real>)

  /** One part of the HOLD explanation. */
  datatype HoldPart = MacdPart(yesterday: Option<real>, today: Option<real>) | KdjPart(k: Option<real>, d: Option<real>)

  /** The explanation of a current signal, with the snapshot values it quotes. */
  datatype Reasoning =
    | InsufficientData
    | ErrorCalculating
    | Conflicting
    | MacdGoldenCross(yesterday: Option<real>, today: Option<real>)
    | KdjOversold(k: Option<real>, d: Option<real>, threshold: real)
    | BuyDetected
    | MacdPeak(dayBefore: Option<real>, yesterday: Option<real>, today: Option<real>)
    | KdjOverbought(k: Option<real>, d: Option<real>, threshold: real)
    | SellDetected
    | NoClearSignal(parts: seq<HoldPart>)

  datatype CurrentSignal = CurrentSignal(signal: SignalType, reasoning: Reasoning, indicators: Snapshot)

  /** `values.get(key, "N/A")` for the snapshot keys; `None` stands for the missing key. */
  function TodayOf(v: Snapshot): Option<real> { if v.Values? then Some(v.histogramToday) else None }
  function YesterdayOf(v: Snapshot): Option<real> { if v.Values? then Some(v.histogramYesterday) else None }
  function DayBeforeOf(v: Snapshot): Option<real> { if v.Values? then v.histogramDayBefore else None }
  function KOf(v: Snapshot): Option<real> { if v.Values? then Some(v.kdjK) else None }
  function DOf(v: Snapshot): Option<real> { if v.Values? then Some(v.kdjD) else None }

  /** `_build_buy_reasoning`: quotes the values the buy rule of the indicator looked at. */
  function BuildBuyReasoning(indicator: string, values: Snapshot, threshold: Option<real>): (r: Reasoning)
    ensures Names(indicator, "macd") ==> r == MacdGoldenCross(YesterdayOf(values), TodayOf(values))
    ensures Names(indicator, "kdj") ==> r == KdjOversold(KOf(values), DOf(values), threshold.GetOr(KdjBuyThreshold))
    ensures !Names(indicator, "macd") && !Names(indicator, "kdj") ==> r == BuyDetected
  {
    if Strings.Lower(indicator) == "macd" then MacdGoldenCross(YesterdayOf(values), TodayOf(values))
    else if Strings.Lower(indicator) == "kdj" then KdjOversold(KOf(values), DOf(values), threshold.GetOr(KdjBuyThreshold))
    else BuyDetected
  }

  /** `_build_sell_reasoning`: quotes the values the sell rule of the indicator looked at. */
  function BuildSellReasoning(indicator: string, values: Snapshot, threshold: Option<real>): (r: Reasoning)
    ensures Names(indicator, "macd") ==> r == MacdPeak(DayBeforeOf(values), YesterdayOf(values), TodayOf(values))
    ensures Names(indicator, "kdj") ==> r == KdjOverbought(KOf(values), DOf(values), threshold.GetOr(KdjSellThreshold))
    ensures !Names(indicator, "macd") && !Names(indicator, "kdj") ==> r == SellDetected
  {
    if Strings.Lower(indicator) == "macd" then MacdPeak(DayBeforeOf(values), YesterdayOf(values), TodayOf(values))
    else if Strings.Lower(indicator) == "kdj" then KdjOverbought(KOf(values), DOf(values), threshold.GetOr(KdjSellThreshold))
    else SellDetected
  }

  /**
   * `_build_hold_reasoning`: a MACD part when either side uses MACD, then a KDJ
   * part when either side uses KDJ, and nothing else.
   */
  function BuildHoldReasoning(buyIndicator: string, sellIndicator: string, values: Snapshot): (r: Reasoning)
    ensures r.NoClearSignal? && |r.parts| <= 2
    ensures MacdPart(YesterdayOf(values), TodayOf(values)) in r.parts <==>
            Names(buyIndicator, "macd") || Names(sellIndicator, "macd")
    ensures KdjPart(KOf(values), DOf(values)) in r.parts <==>
            Names(buyIndicator, "kdj") || Names(sellIndicator, "kdj")
    ensures |r.parts| == 2 ==> r.parts[0].MacdPart? && r.parts[1].KdjPart?
    ensures forall p :: p in r.parts ==>
      p == MacdPart(YesterdayOf(values), TodayOf(values)) || p == KdjPart(KOf(values), DOf(values))
  {
    var macd := if Strings.Lower(buyIndicator) == "macd" || Strings.Lower(sellIndicator) == "macd"
                then [MacdPart(YesterdayOf(values), TodayOf(values))] else [];
    var kdj := if Strings.Lower(buyIndicator) == "kdj" || Strings.Lower(sellIndicator) == "kdj"
               then [KdjPart(KOf(values), DOf(values))] else [];
    NoClearSignal(macd + kdj)
  }

  /** The buy rule read at the last bar. */
  function BuyAtLast(bars: seq<Bar>, ema: Ema, indicator: string, threshold: Option<real>): bool
    requires LengthPreserving(ema) && |bars| >= 1
  {
    CheckBuySignal(|bars| - 1, indicator, HistogramInput(bars, ema), KInput(bars), DInput(bars), threshold)
  }

  /** The sell rule read at the last bar. */
  function SellAtLast(bars: seq<Bar>, ema: Ema, indicator: string, threshold: Option<real>): bool
    requires LengthPreserving(ema) && |bars| >= 1
  {
    CheckSellSignal(|bars| - 1, indicator, HistogramInput(bars, ema), KInput(bars), DInput(bars), threshold)
  }

  /**
   * The values reported with a current signal: the last two histogram values
   * rounded to four decimals, the last K and D rounded to two, and the
   * histogram value before those (a histogram as long as the bars has at
   * least three values here).
   */
  function LastValues(bars: seq<Bar>, ema: Ema): Snapshot
    requires LengthPreserving(ema) && |bars| >= SlowPeriod
  {
    var hs := CalculateMacd(bars, ema).value.histogram;
    var kdj := KdjOf(bars).value;
    var last := |bars| - 1;
    Values(Numeric.Round4(hs[last]), Numeric.Round4(hs[last - 1]),
           Numeric.Round2(kdj.k[last]), Numeric.Round2(kdj.d[last]),
           Some(Numeric.Round4(hs[last - 2])))
  }

  /**
   * `get_current_signal`: fewer than three bars give HOLD with no values; a
   * failing MACD or KDJ calculation gives HOLD "Error calculating indicators";
   * otherwise both rules are read at the last bar and resolved: both give HOLD
   * (conflicting), one alone gives that side, neither gives HOLD.
   */
  function GetCurrentSignal(bars: seq<Bar>, ema: Ema, buyIndicator: string, sellIndicator: string,
                            buyThreshold: Option<real>, sellThreshold: Option<real>): (r: CurrentSignal)
    requires LengthPreserving(ema)
    ensures |bars| < 3 ==> r == CurrentSignal(Hold, InsufficientData, NoValues)
    ensures 3 <= |bars| < SlowPeriod ==> r == CurrentSignal(Hold, ErrorCalculating, NoValues)
    ensures |bars| >= SlowPeriod ==>
      var isBuy := BuyAtLast(bars, ema, buyIndicator, buyThreshold);
      var isSell := SellAtLast(bars, ema, sellIndicator, sellThreshold);
      && r.indicators == LastValues(bars, ema)
      && (r.signal == Buy <==> isBuy && !isSell)
      && (r.signal == Sell <==> isSell && !isBuy)
      && (isBuy && isSell ==> r.reasoning == Conflicting)
      && (isBuy && !isSell ==> r.reasoning == BuildBuyReasoning(buyIndicator, r.indicators, buyThreshold))
      && (isSell && !isBuy ==> r.reasoning == BuildSellReasoning(sellIndicator, r.indicators, sellThreshold))
      && (!isBuy && !isSell ==> r.reasoning == BuildHoldReasoning(buyIndicator, sellIndicator, r.indicators))
  {
    if |bars| < 3 then CurrentSignal(Hold, InsufficientData, NoValues)
    else
      var macdResult := CalculateMacd(bars, ema);
      var kdjResult := KdjOf(bars);
      if macdResult.Err? || kdjResult.Err? then CurrentSignal(Hold, ErrorCalculating, NoValues)
      else
        var isBuy := BuyAtLast(bars, ema, buyIndicator, buyThreshold);
        var isSell := SellAtLast(bars, ema, sellIndicator, sellThreshold);
        var values := LastValues(bars, ema);
        if isBuy && isSell then CurrentSignal(Hold, Conflicting, values)
        else if isBuy then CurrentSignal(Buy, BuildBuyReasoning(buyIndicator, values, buyThreshold), values)
        else if isSell then CurrentSignal(Sell, BuildSellReasoning(sellIndicator, values, sellThreshold), values)
        else CurrentSignal(Hold, BuildHoldReasoning(buyIndicator, sellIndicator, values), values)
  }

  // ------------------------------------------------------------ explanation text

  function JoinWith(parts: seq<string>, sep: string): string {
    if |parts| == 0 then [] else if |parts| == 1 then parts[0] else parts[0] + sep + JoinWith(parts[1..], sep)
  }

  /** A quoted value: `fmt` stands for Python's number formatting; a missing key reads "N/A". */
  function Quote(v: Option<real>, fmt: real -> string): string {
    match v
    case None => "N/A"
    case Some(x) => fmt(x)
  }

  function PartText(p: HoldPart, fmt: real -> string): string {
    match p
    case MacdPart(y, t) => "MACD histogram: yesterday=" + Quote(y, fmt) + ", today=" + Quote(t, fmt)
    case KdjPart(k, d) => "KDJ: K=" + Quote(k, fmt) + ", D=" + Quote(d, fmt)
  }

  /** The explanation string returned to the caller. */
  function Message(r: Reasoning, fmt: real -> string): string {
    match r
    case InsufficientData => "Insufficient data for signal detection"
    case ErrorCalculating => "Error calculating indicators"
    case Conflicting => "Conflicting signals from buy and sell indicators"
    case MacdGoldenCross(y, t) =>
      "MACD golden cross: histogram crossed above zero (yesterday: " + Quote(y, fmt) + ", today: " + Quote(t, fmt) + ")"
    case KdjOversold(k, d, th) =>
      "KDJ oversold: K=" + Quote(k, fmt) + ", D=" + Quote(d, fmt) + " (both below " + fmt(th) + ")"
    case BuyDetected => "Buy signal detected"
    case MacdPeak(db, y, t) =>
      "MACD peak detected: histogram peaked and declining (day before: " + Quote(db, fmt) +
      ", yesterday: " + Quote(y, fmt) + ", today: " + Quote(t, fmt) + ")"
    case KdjOverbought(k, d, th) =>
      "KDJ overbought: K=" + Quote(k, fmt) + ", D=" + Quote(d, fmt) + " (both above " + fmt(th) + ")"
    case SellDetected => "Sell signal detected"
    case NoClearSignal(parts) =>
      "No clear signal. " + JoinWith(seq(|parts|, i requires 0 <= i < |parts| => PartText(parts[i], fmt)), ", ")
  }

  /** The HOLD explanation is "No clear signal. " followed by its parts joined with ", ". */
  lemma HoldMessageShape(buyIndicator: string, sellIndicator: string, values: Snapshot, fmt: real -> string)
    ensures var m := Message(BuildHoldReasoning(buyIndicator, sellIndicator, values), fmt);
      var both := (Names(buyIndicator, "macd") || Names(sellIndicator, "macd")) &&
                  (Names(buyIndicator, "kdj") || Names(sellIndicator, "kdj"));
      var macd := PartText(MacdPart(YesterdayOf(values), TodayOf(values)), fmt);
      var kdj := PartText(KdjPart(KOf(values), DOf(values)), fmt);
      && m[..17] == "No clear signal. "
      && (both ==> m == "No clear signal. " + (macd + ", " + kdj))
  {
    var r := BuildHoldReasoning(buyIndicator, sellIndicator, values);
    HoldMessage(r.parts, fmt);
    if (Names(buyIndicator, "macd") || Names(sellIndicator, "macd")) &&
       (Names(buyIndicator, "kdj") || Names(sellIndicator, "kdj")) {
      BothHoldParts(buyIndicator, sellIndicator, values);
      HoldMessageTwo(MacdPart(YesterdayOf(values), TodayOf(values)), KdjPart(KOf(values), DOf(values)), fmt);
    }
  }

  lemma HoldMessageTwo(a: HoldPart, b: HoldPart, fmt: real -> string)
    ensures Message(NoClearSignal([a, b]), fmt) == "No clear signal. " + (PartText(a, fmt) + ", " + PartText(b, fmt))
  {
    var parts := [a, b];
    HoldMessage(parts, fmt);
    var texts := seq(|parts|, i requires 0 <= i < |parts| => PartText(parts[i], fmt));
    assert JoinWith(texts, ", ") == PartText(a, fmt) + ", " + PartText(b, fmt) by {
      assert texts == [PartText(a, fmt), PartText(b, fmt)];
      JoinTwo(texts, ", ");
    }
  }

  lemma BothHoldParts(buyIndicator: string, sellIndicator: string, values: Snapshot)
    requires Names(buyIndicator, "macd") || Names(sellIndicator, "macd")
    requires Names(buyIndicator, "kdj") || Names(sellIndicator, "kdj")
    ensures BuildHoldReasoning(buyIndicator, sellIndicator, values).parts ==
            [MacdPart(YesterdayOf(values), TodayOf(values)), KdjPart(KOf(values), DOf(values))]
  {
  }

  lemma HoldMessage(parts: seq<HoldPart>, fmt: real -> string)
    ensures var texts := seq(|parts|, i requires 0 <= i < |parts| => PartText(parts[i], fmt));
      var m := Message(NoClearSignal(parts), fmt);
      m == "No clear signal. " + JoinWith(texts, ", ") && m[..17] == "No clear signal. "
  {
    var texts := seq(|parts|, i requires 0 <= i < |parts| => PartText(parts[i], fmt));
    var prefix := "No clear signal. ";
    assert |prefix| == 17;
    assert (prefix + JoinWith(texts, ", "))[..17] == prefix;
  }

  lemma JoinTwo(parts: seq<string>, sep: string)
    requires |parts| == 2
    ensures JoinWith(parts, sep) == parts[0] + sep + parts[1]
  {
    assert parts[1..] == [parts[1]];
  }
}
