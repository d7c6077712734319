/**
 * The request models of the API and their validators: membership tests on
 * operators, sort orders, indicators, periods, intervals and market-cap tags,
 * lower/upper-case normalisation, and the numeric bounds of the fields.
 * A failed validation names the offending fields in declaration order, as
 * the validation error of the request model lists every failing field.
 */
module Requests {
  import opened Wrappers
  import Strings

  const Operators: seq<string> := ["<", ">", "<=", ">=", "==", "!="]
  const Orders: seq<string> := ["asc", "desc"]
  const Indicators: seq<string> := ["macd", "kdj"]
  const Periods: seq<string> := ["1mo", "3mo", "6mo", "1y", "2y", "5y"]
  const Intervals: seq<string> := ["1d", "1wk", "1mo"]
  const MarketCaps: seq<string> := ["mega_cap", "large_cap", "mid_cap", "small_cap", "micro_cap", "all"]

  const MaxTopN: int := 1000
  const MaxStocks: nat := 100

  /** `ExcludeRule.validate_operator`: one of the six operators, passed on unchanged. */
  function ValidateOperator(v: string): (r: Result<string>)
    ensures r.Ok? <==> v in Operators
    ensures r.Ok? ==> r.value == v
  {
    if v in Operators then Ok(v) else Err("Operator must be one of: ['<', '>', '<=', '>=', '==', '!=']")
  }

  /** `SortRule.validate_order`: `asc` or `desc` in any case, returned in lower case. */
  function ValidateOrder(v: string): (r: Result<string>)
    ensures r.Ok? <==> Strings.Lower(v) == "asc" || Strings.Lower(v) == "desc"
    ensures r.Ok? ==> r.value in Orders && r.value == Strings.Lower(v)
  {
    var low := Strings.Lower(v);
    if low in Orders then Ok(low) else Err("Order must be 'asc' or 'desc'")
  }

  /** Validating an order that has already been validated leaves it as it is. */
  lemma OrderIdempotent(v: string)
    requires ValidateOrder(v).Ok?
    ensures ValidateOrder(ValidateOrder(v).value) == ValidateOrder(v)
  {
    Strings.LowerIdempotent(v);
  }

  /** The indicator validators of both request models: `macd` or `kdj` in any case, lower-cased. */
  function ValidateIndicator(v: string): (r: Result<string>)
    ensures r.Ok? <==> Strings.Lower(v) == "macd" || Strings.Lower(v) == "kdj"
    ensures r.Ok? ==> r.value in Indicators && r.value == Strings.Lower(v)
  {
    var low := Strings.Lower(v);
    if low in Indicators then Ok(low) else Err("Indicator must be one of: ['macd', 'kdj']")
  }

  /** `validate_period`: exact, case-sensitive membership. */
  function ValidatePeriod(v: string): (r: Result<string>)
    ensures r.Ok? <==> v in Periods
    ensures r.Ok? ==> r.value == v
  {
    if v in Periods then Ok(v) else Err("Period must be one of: ['1mo', '3mo', '6mo', '1y', '2y', '5y']")
  }

  /** `validate_interval`: exact, case-sensitive membership. */
  function ValidateInterval(v: string): (r: Result<string>)
    ensures r.Ok? <==> v in Intervals
    ensures r.Ok? ==> r.value == v
  {
    if v in Intervals then Ok(v) else Err("Interval must be one of: ['1d', '1wk', '1mo']")
  }

  /** Every tag is one of the six market-cap tags. */
  predicate KnownMarketCaps(tags: seq<string>) {
    forall i :: 0 <= i < |tags| ==> tags[i] in MarketCaps
  }

  /** `validate_market_cap`: no list passes; a list passes when every tag is one of the six. */
  function ValidateMarketCap(v: Option<seq<string>>): (r: Result<Option<seq<string>>>)
    ensures r.Ok? <==> v.None? || KnownMarketCaps(v.value)
    ensures r.Ok? ==> r.value == v
  {
    if v.None? || KnownMarketCaps(v.value) then Ok(v)
    else Err("Market cap must be one of: ['mega_cap', 'large_cap', 'mid_cap', 'small_cap', 'micro_cap', 'all']")
  }

  /** `validate_stocks`: each symbol upper-cased, in order; the list holds 1 to 100 symbols. */
  function ValidateStocks(v: seq<string>): (r: Result<seq<string>>)
    ensures r.Ok? <==> 1 <= |v| <= MaxStocks
    ensures r.Ok? ==> |r.value| == |v| && forall i :: 0 <= i < |v| ==> r.value[i] == Strings.Upper(v[i])
  {
    if 1 <= |v| <= MaxStocks then Ok(seq(|v|, i requires 0 <= i < |v| => Strings.Upper(v[i])))
    else Err("List should have at least 1 item and at most 100 items")
  }

  /** Upper-casing the validated symbols once more changes nothing. */
  lemma StocksIdempotent(v: seq<string>)
    requires ValidateStocks(v).Ok?
    ensures ValidateStocks(ValidateStocks(v).value) == ValidateStocks(v)
  {
    var u := ValidateStocks(v).value;
    forall i | 0 <= i < |u| ensures Strings.Upper(u[i]) == u[i] {
      Strings.UpperIdempotent(v[i]);
    }
    assert ValidateStocks(u).value == u;
  }

  /** An exclude rule: a field of the scan result, an operator and the value it is compared with. */
  datatype ExcludeRule = ExcludeRule(field: string, operator: string, value: real)

  /** A sort rule: a field and its order, `desc` unless given. */
  datatype SortRule = SortRule(field: string, order: string)

  const DefaultOrder: string := "desc"

  /** The body of a market-scan request, with the defaults filled in for absent fields. */
  datatype MarketScanRequest = MarketScanRequest(
    buyIndicator: string, sellIndicator: string, period: string, interval: string,
    buyThreshold: Option<real>, sellThreshold: Option<real>, minTrades: int,
    stockList: Option<seq<string>>, marketCap: Option<seq<string>>, topN: int,
    exclude: Option<seq<ExcludeRule>>, sort: Option<seq<SortRule>>)

  /** The field defaults of the market-scan request. */
  const DefaultScanRequest: MarketScanRequest :=
    MarketScanRequest("macd", "macd", "6mo", "1d", None, None, 3, None, None, 10, None, None)

  /** The body of a trading-signals request; the period is not validated. */
  datatype TradingSignalsRequest = TradingSignalsRequest(
    stocks: seq<string>, buyIndicator: string, sellIndicator: string,
    buyThreshold: Option<real>, sellThreshold: Option<real>, period: string)

  /** Either the validated, normalised model, or the names of the fields that failed. */
  datatype Validated<T> = Valid(value: T) | Invalid(fields: seq<string>)

  function Failed<T>(name: string, r: Result<T>): seq<string> {
    if r.Err? then [name] else []
  }

  function FailedIf(name: string, bad: bool): seq<string> {
    if bad then [name] else []
  }

  predicate OperatorsValid(rules: Option<seq<ExcludeRule>>) {
    rules.None? || forall i :: 0 <= i < |rules.value| ==> ValidateOperator(rules.value[i].operator).Ok?
  }

  predicate OrdersValid(rules: Option<seq<SortRule>>) {
    rules.None? || forall i :: 0 <= i < |rules.value| ==> ValidateOrder(rules.value[i].order).Ok?
  }

  /** Every sort rule with its order lower-cased. */
  function NormaliseOrders(rules: Option<seq<SortRule>>): (r: Option<seq<SortRule>>)
    requires OrdersValid(rules)
    ensures r.None? <==> rules.None?
    ensures r.Some? ==> |r.value| == |rules.value| && forall i :: 0 <= i < |r.value| ==>
      && r.value[i].field == rules.value[i].field
      && r.value[i].order == Strings.Lower(rules.value[i].order) && r.value[i].order in Orders
  {
    if rules.None? then None
    else Some(seq(|rules.value|, i requires 0 <= i < |rules.value| =>
                  SortRule(rules.value[i].field, ValidateOrder(rules.value[i].order).value)))
  }

  /** The fields of a market-scan request that fail their validators or bounds, in declaration order. */
  function ScanRequestErrors(q: MarketScanRequest): seq<string> {
    Failed("buy_indicator", ValidateIndicator(q.buyIndicator))
    + Failed("sell_indicator", ValidateIndicator(q.sellIndicator))
    + Failed("period", ValidatePeriod(q.period))
    + Failed("interval", ValidateInterval(q.interval))
    + FailedIf("min_trades", q.minTrades < 1)
    + Failed("market_cap", ValidateMarketCap(q.marketCap))
    + FailedIf("top_n", !(1 <= q.topN <= MaxTopN))
    + FailedIf("exclude", !OperatorsValid(q.exclude))
    + FailedIf("sort", !OrdersValid(q.sort))
  }

  /** No field fails exactly when every validator and bound passes. */
  lemma ScanRequestErrorsEmpty(q: MarketScanRequest)
    ensures ScanRequestErrors(q) == [] <==>
      && ValidateIndicator(q.buyIndicator).Ok? && ValidateIndicator(q.sellIndicator).Ok?
      && ValidatePeriod(q.period).Ok? && ValidateInterval(q.interval).Ok?
      && q.minTrades >= 1 && 1 <= q.topN <= MaxTopN
      && ValidateMarketCap(q.marketCap).Ok? && OperatorsValid(q.exclude) && OrdersValid(q.sort)
  {
  }

  /**
   * `MarketScanRequest` validation: valid exactly when no field fails (see
   * `ScanRequestErrorsEmpty` for what that means field by field); otherwise
   * the failing fields, in declaration order.
   */
  function ValidateScanRequest(q: MarketScanRequest): (r: Validated<MarketScanRequest>)
    ensures r.Valid? <==> ScanRequestErrors(q) == []
    ensures r.Invalid? ==> r.fields == ScanRequestErrors(q) && |r.fields| > 0
  {
    var errors := ScanRequestErrors(q);
    if errors == [] then
      Valid(q.(buyIndicator := ValidateIndicator(q.buyIndicator).value,
               sellIndicator := ValidateIndicator(q.sellIndicator).value,
               sort := NormaliseOrders(q.sort)))
    else Invalid(errors)
  }

  /**
   * Validation changes only the two indicators, which come out lower-cased,
   * and the sort rules, whose orders come out lower-cased; every other field
   * is passed on as given.
   */
  lemma ScanRequestNormalised(q: MarketScanRequest)
    requires ValidateScanRequest(q).Valid?
    ensures OrdersValid(q.sort)
    ensures Strings.Lower(q.buyIndicator) in Indicators && Strings.Lower(q.sellIndicator) in Indicators
    ensures ValidateScanRequest(q).value == q.(buyIndicator := Strings.Lower(q.buyIndicator),
                                               sellIndicator := Strings.Lower(q.sellIndicator),
                                               sort := NormaliseOrders(q.sort))
  {
    ScanRequestErrorsEmpty(q);
  }

  /** The defaults of the market-scan request are themselves valid. */
  lemma DefaultScanRequestValid()
    ensures ValidateScanRequest(DefaultScanRequest) == Valid(DefaultScanRequest)
  {
    assert Strings.Lower("macd") == "macd";
  }

  /** The fields of a trading-signals request that fail their validators or bounds, in declaration order. */
  function SignalsRequestErrors(q: TradingSignalsRequest): seq<string> {
    Failed("stocks", ValidateStocks(q.stocks))
    + Failed("buy_indicator", ValidateIndicator(q.buyIndicator))
    + Failed("sell_indicator", ValidateIndicator(q.sellIndicator))
  }

  /**
   * `TradingSignalsRequest` validation: 1 to 100 symbols, upper-cased, and
   * the two indicators lower-cased; the period is taken as given.
   */
  function ValidateSignalsRequest(q: TradingSignalsRequest): (r: Validated<TradingSignalsRequest>)
    ensures r.Valid? <==>
      1 <= |q.stocks| <= MaxStocks && ValidateIndicator(q.buyIndicator).Ok? && ValidateIndicator(q.sellIndicator).Ok?
    ensures r.Valid? ==>
      && |r.value.stocks| == |q.stocks|
      && (forall i :: 0 <= i < |q.stocks| ==> r.value.stocks[i] == Strings.Upper(q.stocks[i]))
      && r.value.buyIndicator == Strings.Lower(q.buyIndicator) && r.value.buyIndicator in Indicators
      && r.value.sellIndicator == Strings.Lower(q.sellIndicator) && r.value.sellIndicator in Indicators
      && r.value.period == q.period
      && r.value.buyThreshold == q.buyThreshold && r.value.sellThreshold == q.sellThreshold
    ensures r.Invalid? ==> r.fields == SignalsRequestErrors(q) && |r.fields| > 0
  {
    var errors := SignalsRequestErrors(q);
    if errors == [] then
      Valid(q.(stocks := ValidateStocks(q.stocks).value,
               buyIndicator := ValidateIndicator(q.buyIndicator).value,
               sellIndicator := ValidateIndicator(q.sellIndicator).value))
    else Invalid(errors)
  }

  /** A request that has passed validation passes again unchanged. */
  lemma SignalsRequestIdempotent(q: TradingSignalsRequest)
    requires ValidateSignalsRequest(q).Valid?
    ensures ValidateSignalsRequest(ValidateSignalsRequest(q).value) == ValidateSignalsRequest(q)
  {
    StocksIdempotent(q.stocks);
    Strings.LowerIdempotent(q.buyIndicator);
    Strings.LowerIdempotent(q.sellIndicator);
  }
}
