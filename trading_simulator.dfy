/**
 * The paper-trading simulator: a single-position state machine over the bars
 * that turns the buy and sell signal lists into a trade log, fills every order at
 * the open of the bar after its signal, force-closes a position still open at
 * the end, and summarises the sells into statistics.
 */
module TradingSimulator {
  import opened Wrappers
  import Numeric
  import opened TechnicalAnalysis
  import SignalDetector

  const InitialBalance: real := 10000.0
  const CommissionRate: real := 0.001
  const MinBars: nat := 50

  /** Where a trade's order came from: the bar whose signal placed it, or the end-of-period close. */
  datatype SignalRef = AtBar(bar: nat, day: int) | EndOfPeriod

  /**
   * One entry of the trade log. The figures are kept exact; `Report` rounds them
   * the way the log is returned (prices and money to 2 decimals, shares to 4).
   */
  datatype Trade =
    | BuyTrade(signal: SignalRef, executionBar: nat, executionDay: int, signalPrice: real,
               executionPrice: real, shares: real, commission: real, balanceAfter: real)
    | SellTrade(signal: SignalRef, executionBar: nat, executionDay: int, signalPrice: real,
                executionPrice: real, shares: real, commission: real, proceeds: real,
                netProceeds: real, profitLoss: real, profitLossPercentage: real,
                balanceAfter: real, holdDays: int)

  /** The trade as it appears in the returned log. */
  function Report(t: Trade): (r: Trade)
    ensures r.BuyTrade? == t.BuyTrade? && r.signal == t.signal && r.executionBar == t.executionBar
    ensures r.executionDay == t.executionDay
  {
    match t
    case BuyTrade(signal, bar, day, signalPrice, price, shares, commission, balanceAfter) =>
      BuyTrade(signal, bar, day, Numeric.Round2(signalPrice), Numeric.Round2(price), Numeric.Round4(shares),
               Numeric.Round2(commission), Numeric.Round2(balanceAfter))
    case SellTrade(signal, bar, day, signalPrice, price, shares, commission, proceeds, net, pl, pct, balanceAfter, hold) =>
      SellTrade(signal, bar, day, Numeric.Round2(signalPrice), Numeric.Round2(price), Numeric.Round4(shares),
                Numeric.Round2(commission), Numeric.Round2(proceeds), Numeric.Round2(net), Numeric.Round2(pl),
                Numeric.Round2(pct), Numeric.Round2(balanceAfter), hold)
  }

  function ReportAll(trades: seq<Trade>): (r: seq<Trade>)
    ensures |r| == |trades| && forall j :: 0 <= j < |trades| ==> r[j] == Report(trades[j])
  {
    seq(|trades|, j requires 0 <= j < |trades| => Report(trades[j]))
  }

  /** The local variables of `_execute_trades`; `signalBar` is the index behind `signal_date`. */
  datatype SimState = SimState(
    trades: seq<Trade>, balance: real, shares: real, positionOpen: bool, buyPrice: real,
    buyDay: int, pendingBuy: bool, pendingSell: bool, signalBar: nat, signalDay: int)

  const Start: SimState := SimState([], InitialBalance, 0.0, false, 0.0, 0, false, false, 0, 0)

  /** Prices are positive; a zero open would make the share count a division by zero. */
  predicate PositivePrices(bars: seq<Bar>) {
    forall i :: 0 <= i < |bars| ==> bars[i].open > 0.0 && bars[i].close > 0.0
  }

  predicate Signals(bars: seq<Bar>, buys: seq<int>, sells: seq<int>) {
    |buys| == |bars| && |sells| == |bars|
  }

  /** The exact commission of the last trade (the buy being closed); 0 for an empty log. */
  function LastCommission(trades: seq<Trade>): real {
    if |trades| > 0 then trades[|trades| - 1].commission else 0.0
  }

  /** The whole balance, less commission, buys shares at this bar's open; the balance itself is kept. */
  function FillBuy(bars: seq<Bar>, s: SimState, i: nat): SimState
    requires 0 < i < |bars| && PositivePrices(bars)
  {
    var executionPrice := bars[i].open;
    var commission := s.balance * CommissionRate;
    var shares := (s.balance - commission) / executionPrice;
    var trade := BuyTrade(AtBar(s.signalBar, s.signalDay), i, bars[i].day, bars[i - 1].close,
                          executionPrice, shares, commission, s.balance - commission);
    s.(trades := s.trades + [trade], shares := shares, buyPrice := executionPrice, buyDay := bars[i].day,
       positionOpen := true, pendingBuy := false)
  }

  /**
   * The trade record of selling `shares` at `price`: the net proceeds are the
   * sale value less commission; the cost basis counts the buy commission as the
   * log reports it (rounded to cents), and the percentage is 0 for a non-positive basis.
   */
  function SaleTrade(shares: real, buyPrice: real, buyDay: int, buyCommission: real, signal: SignalRef,
                     bar: nat, day: int, signalPrice: real, price: real): Trade
  {
    var sellValue := shares * price;
    var commission := sellValue * CommissionRate;
    var netProceeds := sellValue - commission;
    var costBasis := shares * buyPrice + Numeric.Round2(buyCommission);
    var profitLoss := netProceeds - costBasis;
    var profitLossPct := if costBasis > 0.0 then (profitLoss / costBasis) * 100.0 else 0.0;
    SellTrade(signal, bar, day, signalPrice, price, shares, commission, sellValue,
              netProceeds, profitLoss, profitLossPct, netProceeds, day - buyDay)
  }

  /** What selling `shares` at `price` leaves after commission. */
  function NetProceeds(shares: real, price: real): real {
    shares * price - shares * price * CommissionRate
  }

  /** The sale of the position held in `s`. */
  function SaleOf(s: SimState, signal: SignalRef, bar: nat, day: int, signalPrice: real, price: real): Trade {
    SaleTrade(s.shares, s.buyPrice, s.buyDay, LastCommission(s.trades), signal, bar, day, signalPrice, price)
  }

  /** Sells the whole position at this bar's open. */
  function FillSell(bars: seq<Bar>, s: SimState, i: nat): SimState
    requires 0 < i < |bars|
  {
    var trade := SaleOf(s, AtBar(s.signalBar, s.signalDay), i, bars[i].day, bars[i - 1].close, bars[i].open);
    s.(trades := s.trades + [trade], balance := NetProceeds(s.shares, bars[i].open), shares := 0.0,
       positionOpen := false, pendingSell := false)
  }

  /**
   * One pass of the loop body over bar `i`: a new buy signal (flat, nothing
   * pending) or a new sell signal (holding, nothing pending) is recorded and the
   * rest of the bar is skipped; otherwise a pending buy, else a pending sell, is filled.
   */
  function Step(bars: seq<Bar>, buys: seq<int>, sells: seq<int>, s: SimState, i: nat): SimState
    requires i < |bars| && Signals(bars, buys, sells) && PositivePrices(bars)
  {
    if buys[i] == 1 && !s.positionOpen && !s.pendingBuy then
      s.(pendingBuy := true, signalBar := i, signalDay := bars[i].day)
    else if sells[i] == 1 && s.positionOpen && !s.pendingSell then
      s.(pendingSell := true, signalBar := i, signalDay := bars[i].day)
    else if s.pendingBuy && i > 0 then FillBuy(bars, s, i)
    else if s.pendingSell && i > 0 then FillSell(bars, s, i)
    else s
  }

  /** The state after the loop has processed the first `n` bars. */
  function Run(bars: seq<Bar>, buys: seq<int>, sells: seq<int>, n: nat): SimState
    requires n <= |bars| && Signals(bars, buys, sells) && PositivePrices(bars)
  {
    if n == 0 then Start else Step(bars, buys, sells, Run(bars, buys, sells, n - 1), n - 1)
  }

  /** After the loop: an open position is sold at the last close, marked "End of period". */
  function CloseOut(bars: seq<Bar>, s: SimState): SimState
    requires |bars| > 0 || !s.positionOpen
  {
    if s.positionOpen then
      var last := |bars| - 1;
      var trade := SaleOf(s, EndOfPeriod, last, bars[last].day, bars[last].close, bars[last].close);
      s.(trades := s.trades + [trade], balance := NetProceeds(s.shares, bars[last].close))
    else s
  }

  // ------------------------------------------------------------ invariants

  /** BUY at even positions, SELL at odd ones. */
  predicate Alternates(trades: seq<Trade>) {
    forall j :: 0 <= j < |trades| ==> (trades[j].BuyTrade? <==> j % 2 == 0)
  }

  /** Position flags: at most one order pending, a sell only while holding, a buy only while flat. */
  predicate FlagsConsistent(s: SimState) {
    && !(s.pendingBuy && s.positionOpen)
    && (s.pendingSell ==> s.positionOpen)
    && (s.positionOpen <==> |s.trades| % 2 == 1)
    && Alternates(s.trades)
  }

  /**
   * Timing after `n` bars: every trade so far was filled at the open of the bar
   * right after its signal bar, at an earlier bar than `n`, and each signal bar
   * comes after the previous trade's fill; a pending order was signalled at bar n-1.
   */
  predicate Timing(bars: seq<Bar>, n: nat, s: SimState)
    requires n <= |bars|
  {
    && (forall j :: 0 <= j < |s.trades| ==>
          && s.trades[j].signal.AtBar?
          && s.trades[j].executionBar == s.trades[j].signal.bar + 1
          && s.trades[j].executionBar < n
          && s.trades[j].signal.day == bars[s.trades[j].signal.bar].day
          && s.trades[j].executionDay == bars[s.trades[j].executionBar].day
          && s.trades[j].executionPrice == bars[s.trades[j].executionBar].open
          && s.trades[j].signalPrice == bars[s.trades[j].signal.bar].close)
    && (forall j :: 0 < j < |s.trades| ==> s.trades[j].signal.bar > s.trades[j - 1].executionBar)
    && ((s.pendingBuy || s.pendingSell) ==>
          && n >= 1 && s.signalBar == n - 1 && s.signalDay == bars[n - 1].day
          && (|s.trades| > 0 ==> s.trades[|s.trades| - 1].executionBar < s.signalBar))
  }

  /**
   * Money: the balance stays positive and is the initial one until the first
   * sale; while holding, the shares are the balance less the buy commission
   * divided by the buy price, and the last trade is that buy, filled at `buyPrice`.
   */
  predicate Funds(bars: seq<Bar>, s: SimState) {
    && s.balance > 0.0
    && (|s.trades| <= 1 ==> s.balance == InitialBalance)
    && (s.positionOpen ==>
          && |s.trades| > 0 && s.trades[|s.trades| - 1].BuyTrade?
          && s.buyPrice > 0.0 && s.shares > 0.0
          && s.shares == (s.balance - s.balance * CommissionRate) / s.buyPrice
          && s.trades[|s.trades| - 1].executionBar < |bars|
          && s.buyPrice == bars[s.trades[|s.trades| - 1].executionBar].open
          && s.buyDay == s.trades[|s.trades| - 1].executionDay
          && s.trades[|s.trades| - 1].commission == s.balance * CommissionRate
          && s.trades[|s.trades| - 1].shares == s.shares)
    && (!s.positionOpen ==> s.shares == 0.0)
  }

  /** A trade was placed by a signal of its own kind at its signal bar. */
  predicate SignalledAt(buys: seq<int>, sells: seq<int>, t: Trade) {
    && t.signal.AtBar? && t.signal.bar < |buys| && t.signal.bar < |sells|
    && (if t.BuyTrade? then buys[t.signal.bar] == 1 else sells[t.signal.bar] == 1)
  }

  /** Every trade, and every pending order, traces back to a signal of its kind. */
  predicate Traced(buys: seq<int>, sells: seq<int>, s: SimState) {
    && (forall j :: 0 <= j < |s.trades| ==> SignalledAt(buys, sells, s.trades[j]))
    && ((s.pendingBuy || s.pendingSell) ==> s.signalBar < |buys| && s.signalBar < |sells|)
    && (s.pendingBuy ==> buys[s.signalBar] == 1)
    && (s.pendingSell ==> sells[s.signalBar] == 1)
  }

  /** Each sell closes the buy just before it: the same share count, held for the days between the fills. */
  predicate Pairs(trades: seq<Trade>) {
    forall j :: 0 < j < |trades| && trades[j].SellTrade? && trades[j - 1].BuyTrade? ==>
      trades[j].shares == trades[j - 1].shares &&
      trades[j].holdDays == trades[j].executionDay - trades[j - 1].executionDay
  }

  predicate Inv(bars: seq<Bar>, buys: seq<int>, sells: seq<int>, n: nat, s: SimState)
    requires n <= |bars|
  {
    FlagsConsistent(s) && Timing(bars, n, s) && Funds(bars, s) && Traced(buys, sells, s) && Pairs(s.trades)
  }

  // ------------------------------------------------------------ preservation

  lemma QuotientTimesDivisor(x: real, p: real)
    requires p > 0.0
    ensures (x / p) * p == x
  {
  }

  lemma SelfQuotient(x: real)
    requires x > 0.0
    ensures x / x == 1.0
  {
  }

  lemma QuotientPositive(x: real, p: real)
    requires x > 0.0 && p > 0.0
    ensures x / p > 0.0
  {
  }

  lemma ProductPositive(x: real, y: real)
    requires x > 0.0 && y > 0.0
    ensures x * y > 0.0
  {
  }

  lemma FillBuyKeepsFlags(bars: seq<Bar>, s: SimState, i: nat)
    requires 0 < i < |bars| && PositivePrices(bars) && FlagsConsistent(s) && s.pendingBuy
    ensures FlagsConsistent(FillBuy(bars, s, i))
  {
    var t := FillBuy(bars, s, i).trades;
    assert forall j :: 0 <= j < |s.trades| ==> t[j] == s.trades[j];
  }

  lemma FillBuyKeepsTiming(bars: seq<Bar>, s: SimState, i: nat)
    requires 0 < i < |bars| && PositivePrices(bars) && Timing(bars, i, s) && FlagsConsistent(s) && s.pendingBuy
    ensures Timing(bars, i + 1, FillBuy(bars, s, i))
  {
    var t := FillBuy(bars, s, i).trades;
    assert forall j :: 0 <= j < |s.trades| ==> t[j] == s.trades[j];
  }

  lemma FillBuyKeepsFunds(bars: seq<Bar>, s: SimState, i: nat)
    requires 0 < i < |bars| && PositivePrices(bars) && Funds(bars, s) && FlagsConsistent(s) && s.pendingBuy
    ensures Funds(bars, FillBuy(bars, s, i))
  {
    var r := FillBuy(bars, s, i);
    var commission := s.balance * CommissionRate;
    assert s.balance - commission > 0.0;
    QuotientPositive(s.balance - commission, bars[i].open);
  }

  lemma FillBuyKeepsPairs(bars: seq<Bar>, s: SimState, i: nat)
    requires 0 < i < |bars| && PositivePrices(bars) && Pairs(s.trades)
    ensures Pairs(FillBuy(bars, s, i).trades)
  {
    var t := FillBuy(bars, s, i).trades;
    assert forall j :: 0 <= j < |s.trades| ==> t[j] == s.trades[j];
  }

  lemma FillBuyKeepsInv(bars: seq<Bar>, buys: seq<int>, sells: seq<int>, s: SimState, i: nat)
    requires 0 < i < |bars| && Signals(bars, buys, sells) && PositivePrices(bars) && Inv(bars, buys, sells, i, s)
    requires s.pendingBuy
    ensures Inv(bars, buys, sells, i + 1, FillBuy(bars, s, i))
  {
    FillBuyKeepsFlags(bars, s, i);
    FillBuyKeepsTiming(bars, s, i);
    FillBuyKeepsFunds(bars, s, i);
    FillBuyKeepsPairs(bars, s, i);
    var t := FillBuy(bars, s, i).trades;
    assert forall j :: 0 <= j < |s.trades| ==> t[j] == s.trades[j];
  }

  lemma FillSellKeepsFunds(bars: seq<Bar>, s: SimState, i: nat)
    requires 0 < i < |bars| && PositivePrices(bars) && s.shares > 0.0 && |s.trades| >= 1
    ensures Funds(bars, FillSell(bars, s, i))
  {
    var r := FillSell(bars, s, i);
    var value := s.shares * bars[i].open;
    ProductPositive(s.shares, bars[i].open);
    assert r.balance == value - value * CommissionRate;
  }

  lemma FillSellKeepsFlags(bars: seq<Bar>, s: SimState, i: nat)
    requires 0 < i < |bars| && FlagsConsistent(s) && s.pendingSell && !s.pendingBuy
    ensures FlagsConsistent(FillSell(bars, s, i))
  {
    var t := FillSell(bars, s, i).trades;
    assert forall j :: 0 <= j < |s.trades| ==> t[j] == s.trades[j];
  }

  lemma FillSellKeepsTiming(bars: seq<Bar>, s: SimState, i: nat)
    requires 0 < i < |bars| && Timing(bars, i, s) && s.pendingSell && !s.pendingBuy
    ensures Timing(bars, i + 1, FillSell(bars, s, i))
  {
    var t := FillSell(bars, s, i).trades;
    assert forall j :: 0 <= j < |s.trades| ==> t[j] == s.trades[j];
  }

  lemma FillSellKeepsTraced(bars: seq<Bar>, buys: seq<int>, sells: seq<int>, s: SimState, i: nat)
    requires 0 < i < |bars| && Traced(buys, sells, s) && s.pendingSell && !s.pendingBuy
    ensures Traced(buys, sells, FillSell(bars, s, i))
  {
    var t := FillSell(bars, s, i).trades;
    assert forall j :: 0 <= j < |s.trades| ==> t[j] == s.trades[j];
  }

  lemma FillSellKeepsPairs(bars: seq<Bar>, s: SimState, i: nat)
    requires 0 < i < |bars| && Pairs(s.trades)
    requires |s.trades| > 0 && s.buyDay == s.trades[|s.trades| - 1].executionDay
    requires s.trades[|s.trades| - 1].shares == s.shares
    ensures Pairs(FillSell(bars, s, i).trades)
  {
    var t := FillSell(bars, s, i).trades;
    assert forall j :: 0 <= j < |s.trades| ==> t[j] == s.trades[j];
  }

  lemma FillSellKeepsInv(bars: seq<Bar>, buys: seq<int>, sells: seq<int>, s: SimState, i: nat)
    requires 0 < i < |bars| && Signals(bars, buys, sells) && PositivePrices(bars) && Inv(bars, buys, sells, i, s)
    requires s.pendingSell && !s.pendingBuy
    ensures Inv(bars, buys, sells, i + 1, FillSell(bars, s, i))
  {
    FillSellKeepsFlags(bars, s, i);
    FillSellKeepsTiming(bars, s, i);
    FillSellKeepsFunds(bars, s, i);
    FillSellKeepsTraced(bars, buys, sells, s, i);
    FillSellKeepsPairs(bars, s, i);
  }

  lemma StepKeepsInv(bars: seq<Bar>, buys: seq<int>, sells: seq<int>, s: SimState, n: nat)
    requires 0 < n <= |bars| && Signals(bars, buys, sells) && PositivePrices(bars) && Inv(bars, buys, sells, n - 1, s)
    ensures Inv(bars, buys, sells, n, Step(bars, buys, sells, s, n - 1))
  {
    var i := n - 1;
    assert i + 1 == n;
    if buys[i] == 1 && !s.positionOpen && !s.pendingBuy {
    } else if sells[i] == 1 && s.positionOpen && !s.pendingSell {
    } else if s.pendingBuy && i > 0 {
      FillBuyKeepsInv(bars, buys, sells, s, i);
    } else if s.pendingSell && i > 0 {
      FillSellKeepsInv(bars, buys, sells, s, i);
    }
  }

  lemma {:induction false} RunKeepsInv(bars: seq<Bar>, buys: seq<int>, sells: seq<int>, n: nat)
    requires n <= |bars| && Signals(bars, buys, sells) && PositivePrices(bars)
    ensures Inv(bars, buys, sells, n, Run(bars, buys, sells, n))
  {
    if n > 0 {
      RunKeepsInv(bars, buys, sells, n - 1);
      StepKeepsInv(bars, buys, sells, Run(bars, buys, sells, n - 1), n);
    } else {
      StartInv(bars, buys, sells);
    }
  }

  lemma StartInv(bars: seq<Bar>, buys: seq<int>, sells: seq<int>)
    ensures Inv(bars, buys, sells, 0, Start)
  {
  }

  /**
   * The per-bar rules: a buy order is placed only on a buy signal while flat
   * with no buy pending, a sell order only on a sell signal while holding with
   * no sell pending; a bar that places an order fills nothing, and a bar that
   * fills an order leaves nothing pending, so a signal on a fill bar is dropped.
   */
  lemma StepSignalRules(bars: seq<Bar>, buys: seq<int>, sells: seq<int>, s: SimState, i: nat)
    requires i < |bars| && Signals(bars, buys, sells) && PositivePrices(bars) && FlagsConsistent(s)
    ensures var r := Step(bars, buys, sells, s, i);
      && (r.pendingBuy && !s.pendingBuy <==> buys[i] == 1 && !s.positionOpen && !s.pendingBuy)
      && (r.pendingSell && !s.pendingSell <==> sells[i] == 1 && s.positionOpen && !s.pendingSell)
      && ((r.pendingBuy && !s.pendingBuy) || (r.pendingSell && !s.pendingSell) ==> r.trades == s.trades)
      && (r.trades != s.trades ==>
            && i > 0 && |r.trades| == |s.trades| + 1 && !r.pendingBuy && !r.pendingSell
            && (r.trades[|s.trades|].BuyTrade? <==> s.pendingBuy))
  {
  }

  // ------------------------------------------------------------ the whole run

  /** `_execute_trades`: the loop over every bar, then the end-of-period close. */
  function Execute(bars: seq<Bar>, buys: seq<int>, sells: seq<int>): SimState
    requires Signals(bars, buys, sells) && PositivePrices(bars)
  {
    HoldingHasTrades(bars, buys, sells, |bars|);
    CloseOut(bars, Run(bars, buys, sells, |bars|))
  }

  /** Only a filled buy opens a position, so holding means a trade exists and some bar was processed. */
  lemma HoldingHasTrades(bars: seq<Bar>, buys: seq<int>, sells: seq<int>, n: nat)
    requires n <= |bars| && Signals(bars, buys, sells) && PositivePrices(bars)
    ensures var s := Run(bars, buys, sells, n);
      s.positionOpen ==> |s.trades| > 0 && n > 0 && s.trades[|s.trades| - 1].BuyTrade?
  {
    RunKeepsInv(bars, buys, sells, n);
    var s := Run(bars, buys, sells, n);
    if s.positionOpen {
      assert s.trades[|s.trades| - 1].executionBar < n;
    }
  }

  /** A trade filled at the open of the bar after its signal bar, at the prices of those bars. */
  predicate FilledNextOpen(bars: seq<Bar>, t: Trade) {
    && t.signal.AtBar?
    && t.executionBar == t.signal.bar + 1 && t.executionBar < |bars|
    && t.signal.day == bars[t.signal.bar].day && t.executionDay == bars[t.executionBar].day
    && t.executionPrice == bars[t.executionBar].open
    && t.signalPrice == bars[t.signal.bar].close
  }

  /** The forced sale: "End of period", at the last bar's close. */
  predicate ClosedAtEnd(bars: seq<Bar>, t: Trade) {
    && t.SellTrade? && t.signal.EndOfPeriod?
    && |bars| > 0 && t.executionBar == |bars| - 1 && t.executionDay == bars[|bars| - 1].day
    && t.executionPrice == bars[|bars| - 1].close
    && t.signalPrice == t.executionPrice
  }

  /** Shape of a finished log: alternating, ending on a sell, each sell closing the buy before it. */
  predicate LogShape(trades: seq<Trade>) {
    Alternates(trades) && |trades| % 2 == 0 && Pairs(trades)
  }

  /** Timing of a finished log: fills at the next open, except a final end-of-period close; no overlap. */
  predicate LogTiming(bars: seq<Bar>, trades: seq<Trade>) {
    && (forall j :: 0 <= j < |trades| ==>
          FilledNextOpen(bars, trades[j]) || (j == |trades| - 1 && ClosedAtEnd(bars, trades[j])))
    && (forall j :: 0 < j < |trades| ==>
          if trades[j].signal.AtBar? then trades[j].signal.bar > trades[j - 1].executionBar
          else trades[j].executionBar >= trades[j - 1].executionBar)
  }

  /** Every trade placed by a signal traces to a signal of its kind. */
  predicate LogTraced(buys: seq<int>, sells: seq<int>, trades: seq<Trade>) {
    forall j :: 0 <= j < |trades| && trades[j].signal.AtBar? ==> SignalledAt(buys, sells, trades[j])
  }

  lemma CloseOutShape(bars: seq<Bar>, s: SimState)
    requires |bars| > 0 && s.positionOpen && FlagsConsistent(s) && Pairs(s.trades)
    requires s.trades[|s.trades| - 1].BuyTrade? && s.buyDay == s.trades[|s.trades| - 1].executionDay
    requires s.trades[|s.trades| - 1].shares == s.shares
    ensures LogShape(CloseOut(bars, s).trades)
  {
    var t := CloseOut(bars, s).trades;
    assert forall j :: 0 <= j < |s.trades| ==> t[j] == s.trades[j];
  }

  lemma CloseOutTiming(bars: seq<Bar>, s: SimState)
    requires |bars| > 0 && s.positionOpen && Timing(bars, |bars|, s)
    ensures LogTiming(bars, CloseOut(bars, s).trades)
  {
    var t := CloseOut(bars, s).trades;
    assert forall j :: 0 <= j < |s.trades| ==> t[j] == s.trades[j];
  }

  lemma CloseOutTraced(bars: seq<Bar>, buys: seq<int>, sells: seq<int>, s: SimState)
    requires |bars| > 0 && s.positionOpen && Traced(buys, sells, s)
    ensures LogTraced(buys, sells, CloseOut(bars, s).trades)
  {
    var t := CloseOut(bars, s).trades;
    assert forall j :: 0 <= j < |s.trades| ==> t[j] == s.trades[j];
  }

  lemma CloseOutBalance(bars: seq<Bar>, s: SimState)
    requires |bars| > 0 && s.positionOpen && s.shares > 0.0 && bars[|bars| - 1].close > 0.0
    ensures CloseOut(bars, s).balance > 0.0
  {
    ProductPositive(s.shares, bars[|bars| - 1].close);
  }

  lemma CloseOutKeepsLog(bars: seq<Bar>, buys: seq<int>, sells: seq<int>, s: SimState)
    requires Signals(bars, buys, sells) && PositivePrices(bars) && Inv(bars, buys, sells, |bars|, s)
    ensures var r := CloseOut(bars, s);
      && LogShape(r.trades) && LogTiming(bars, r.trades) && LogTraced(buys, sells, r.trades)
      && r.balance > 0.0 && (|r.trades| == 0 ==> r.balance == InitialBalance)
  {
    if s.positionOpen {
      CloseOutShape(bars, s);
      CloseOutTiming(bars, s);
      CloseOutTraced(bars, buys, sells, s);
      CloseOutBalance(bars, s);
    }
  }

  /**
   * The final log alternates BUY, SELL, ... and ends on a SELL; each trade traces
   * to a signal of its kind and was filled at the next open, except possibly the
   * last, which is the end-of-period sale at the last close; orders never overlap;
   * each sell sells the shares of the buy before it; the balance stays positive
   * and is untouched when nothing was traded.
   */
  lemma ExecuteLog(bars: seq<Bar>, buys: seq<int>, sells: seq<int>)
    requires Signals(bars, buys, sells) && PositivePrices(bars)
    ensures var r := Execute(bars, buys, sells);
      && LogShape(r.trades) && LogTiming(bars, r.trades) && LogTraced(buys, sells, r.trades)
      && r.balance > 0.0 && (|r.trades| == 0 ==> r.balance == InitialBalance)
  {
    RunKeepsInv(bars, buys, sells, |bars|);
    CloseOutKeepsLog(bars, buys, sells, Run(bars, buys, sells, |bars|));
  }

  /** A buy still pending when the bars run out is dropped: no trade, same balance. */
  lemma PendingBuyAtEndDropped(bars: seq<Bar>, buys: seq<int>, sells: seq<int>)
    requires Signals(bars, buys, sells) && PositivePrices(bars)
    requires Run(bars, buys, sells, |bars|).pendingBuy
    ensures Execute(bars, buys, sells).trades == Run(bars, buys, sells, |bars|).trades
    ensures Execute(bars, buys, sells).balance == Run(bars, buys, sells, |bars|).balance
  {
    RunKeepsInv(bars, buys, sells, |bars|);
  }

  /**
   * A buy fill commits the whole balance: the commission is the rate on the
   * balance, the shares at the fill price are worth the rest, and the balance
   * itself is not touched until the sale.
   */
  lemma BuyFillInvestsBalance(bars: seq<Bar>, s: SimState, i: nat)
    requires 0 < i < |bars| && PositivePrices(bars)
    ensures var r := FillBuy(bars, s, i); var t := r.trades[|r.trades| - 1];
      && r.balance == s.balance
      && r.shares * bars[i].open == s.balance - s.balance * CommissionRate
      && t.commission == s.balance * CommissionRate
      && t.balanceAfter == s.balance - s.balance * CommissionRate
      && t.shares == r.shares
  {
    QuotientTimesDivisor(s.balance - s.balance * CommissionRate, bars[i].open);
  }

  /**
   * A sale while holding: the new balance is the sale value less the rate, and
   * the recorded profit is those net proceeds less what the buy drew from the
   * balance, counting the buy commission as it was recorded (rounded).
   */
  lemma SaleProfit(bars: seq<Bar>, buys: seq<int>, sells: seq<int>, n: nat, s: SimState,
                   signal: SignalRef, bar: nat, day: int, signalPrice: real, price: real)
    requires n <= |bars| && Inv(bars, buys, sells, n, s) && s.positionOpen
    ensures var t := SaleOf(s, signal, bar, day, signalPrice, price);
      && NetProceeds(s.shares, price) == s.shares * price * (1.0 - CommissionRate)
      && t.netProceeds == NetProceeds(s.shares, price) && t.balanceAfter == t.netProceeds
      && t.profitLoss == NetProceeds(s.shares, price) -
           (s.balance - s.balance * CommissionRate + Numeric.Round2(s.balance * CommissionRate))
  {
    QuotientTimesDivisor(s.balance - s.balance * CommissionRate, s.buyPrice);
  }

  function BuyCount(trades: seq<Trade>): nat {
    if |trades| == 0 then 0
    else BuyCount(trades[..|trades| - 1]) + (if trades[|trades| - 1].BuyTrade? then 1 else 0)
  }

  function SellCount(trades: seq<Trade>): nat {
    if |trades| == 0 then 0
    else SellCount(trades[..|trades| - 1]) + (if trades[|trades| - 1].SellTrade? then 1 else 0)
  }

  lemma {:induction false} AlternatingCounts(trades: seq<Trade>, k: nat)
    requires Alternates(trades) && k <= |trades|
    ensures BuyCount(trades[..k]) == (k + 1) / 2 && SellCount(trades[..k]) == k / 2
  {
    if k > 0 {
      AlternatingCounts(trades, k - 1);
      assert trades[..k][..k - 1] == trades[..k - 1];
    }
  }

  /** Every prefix of the final log has one BUY more than SELLs or as many; the whole log has as many. */
  lemma TradeLogBalanced(bars: seq<Bar>, buys: seq<int>, sells: seq<int>)
    requires Signals(bars, buys, sells) && PositivePrices(bars)
    ensures var t := Execute(bars, buys, sells).trades;
      && BuyCount(t) == SellCount(t) == |t| / 2
      && forall k :: 0 <= k <= |t| ==> 0 <= BuyCount(t[..k]) - SellCount(t[..k]) <= 1
  {
    var t := Execute(bars, buys, sells).trades;
    ExecuteLog(bars, buys, sells);
    AlternatingCounts(t, |t|);
    assert t[..|t|] == t;
    forall k | 0 <= k <= |t| ensures 0 <= BuyCount(t[..k]) - SellCount(t[..k]) <= 1 {
      AlternatingCounts(t, k);
    }
  }

  /**
   * The arithmetic both sale paths of `_execute_trades` share: sale value,
   * commission, net proceeds, cost basis, profit and its percentage, hold days.
   */
  method SellPosition(shares: real, buyPrice: real, buyDay: int, buyCommission: real, signal: SignalRef,
                      bar: nat, day: int, signalPrice: real, price: real)
    returns (trade: Trade, netProceeds: real)
    ensures trade == SaleTrade(shares, buyPrice, buyDay, buyCommission, signal, bar, day, signalPrice, price)
    ensures netProceeds == NetProceeds(shares, price)
  {
    var sellValue := shares * price;
    var commission := sellValue * CommissionRate;
    netProceeds := sellValue - commission;
    var costBasis := shares * buyPrice + Numeric.Round2(buyCommission);
    var profitLoss := netProceeds - costBasis;
    var profitLossPct := if costBasis > 0.0 then (profitLoss / costBasis) * 100.0 else 0.0;
    var holdDays := day - buyDay;
    trade := SellTrade(signal, bar, day, signalPrice, price, shares, commission, sellValue,
                       netProceeds, profitLoss, profitLossPct, netProceeds, holdDays);
  }

  /** The loop of `_execute_trades` over mutable locals, followed by the forced close. */
  method ExecuteTrades(bars: seq<Bar>, buySignals: seq<int>, sellSignals: seq<int>)
    returns (trades: seq<Trade>, balance: real)
    requires Signals(bars, buySignals, sellSignals) && PositivePrices(bars)
    ensures trades == Execute(bars, buySignals, sellSignals).trades
    ensures balance == Execute(bars, buySignals, sellSignals).balance
  {
    trades := [];
    balance := InitialBalance;
    var shares := 0.0;
    var positionOpen := false;
    var buyPrice := 0.0;
    var buyDay := 0;
    var pendingBuy := false;
    var pendingSell := false;
    var signalBar, signalDay := 0, 0;
    for i := 0 to |bars|
      invariant SimState(trades, balance, shares, positionOpen, buyPrice, buyDay, pendingBuy, pendingSell,
                         signalBar, signalDay) == Run(bars, buySignals, sellSignals, i)
    {
      ghost var before := SimState(trades, balance, shares, positionOpen, buyPrice, buyDay, pendingBuy, pendingSell,
                                   signalBar, signalDay);
      HoldingHasTrades(bars, buySignals, sellSignals, i);
      var currentDay := bars[i].day;
      if buySignals[i] == 1 && !positionOpen && !pendingBuy {
        pendingBuy := true;
        signalBar, signalDay := i, currentDay;
        continue;
      }
      if sellSignals[i] == 1 && positionOpen && !pendingSell {
        pendingSell := true;
        signalBar, signalDay := i, currentDay;
        continue;
      }
      if pendingBuy && i > 0 {
        var executionPrice := bars[i].open;
        var commission := balance * CommissionRate;
        shares := (balance - commission) / executionPrice;
        buyPrice := executionPrice;
        buyDay := currentDay;
        positionOpen := true;
        pendingBuy := false;
        trades := trades + [BuyTrade(AtBar(signalBar, signalDay), i, currentDay, bars[i - 1].close,
                                     executionPrice, shares, commission, balance - commission)];
        assert SimState(trades, balance, shares, positionOpen, buyPrice, buyDay, pendingBuy, pendingSell,
                        signalBar, signalDay) == FillBuy(bars, before, i);
      } else if pendingSell && i > 0 {
        var trade, netProceeds := SellPosition(shares, buyPrice, buyDay, trades[|trades| - 1].commission,
                                               AtBar(signalBar, signalDay), i, currentDay,
                                               bars[i - 1].close, bars[i].open);
        balance := netProceeds;
        trades := trades + [trade];
        shares := 0.0;
        positionOpen := false;
        pendingSell := false;
        assert SimState(trades, balance, shares, positionOpen, buyPrice, buyDay, pendingBuy, pendingSell,
                        signalBar, signalDay) == FillSell(bars, before, i);
      }
    }
    HoldingHasTrades(bars, buySignals, sellSignals, |bars|);
    ghost var final := SimState(trades, balance, shares, positionOpen, buyPrice, buyDay, pendingBuy, pendingSell,
                                signalBar, signalDay);
    if positionOpen {
      var last := |bars| - 1;
      var currentPrice := bars[last].close;
      var trade, netProceeds := SellPosition(shares, buyPrice, buyDay, trades[|trades| - 1].commission,
                                             EndOfPeriod, last, bars[last].day, currentPrice, currentPrice);
      balance := netProceeds;
      trades := trades + [trade];
    }
  }

  // ---- Statistics over the returned (rounded) trade log ----

  /** The summary figures of `_calculate_statistics`; counts and days are carried as reals. */
  datatype Statistics = Statistics(
    successRate: real, avgTradeFrequency: real, totalProfit: real, totalLoss: real,
    avgProfit: real, avgLoss: real, maxProfit: real, maxLoss: real, avgHoldDays: real)

  const EmptyStatistics: Statistics := Statistics(0.0, 0.0, 0.0, 0.0, 0.0, 0.0, 0.0, 0.0, 0.0)

  /** The SELL entries of a log, in order. */
  function SellsOf(trades: seq<Trade>): (r: seq<Trade>)
    ensures |r| == SellCount(trades)
    ensures forall t :: t in r <==> t in trades && t.SellTrade?
  {
    if |trades| == 0 then []
    else
      var init := trades[..|trades| - 1];
      var last := trades[|trades| - 1];
      assert trades == init + [last];
      SellsOf(init) + (if last.SellTrade? then [last] else [])
  }

  /** The positive profit-and-loss figures of the sells (`profits`). */
  function ProfitsOf(sells: seq<Trade>): (r: seq<real>)
    ensures |r| <= |sells|
    ensures forall i :: 0 <= i < |r| ==> r[i] > 0.0
    ensures forall x :: x in r <==> exists t :: t in sells && t.SellTrade? && t.profitLoss > 0.0 && t.profitLoss == x
  {
    if |sells| == 0 then []
    else
      var init := sells[..|sells| - 1];
      var last := sells[|sells| - 1];
      assert sells == init + [last];
      ProfitsOf(init) + (if last.SellTrade? && last.profitLoss > 0.0 then [last.profitLoss] else [])
  }

  /** The negative profit-and-loss figures of the sells (`losses`). */
  function LossesOf(sells: seq<Trade>): (r: seq<real>)
    ensures |r| <= |sells|
    ensures forall i :: 0 <= i < |r| ==> r[i] < 0.0
    ensures forall x :: x in r <==> exists t :: t in sells && t.SellTrade? && t.profitLoss < 0.0 && t.profitLoss == x
  {
    if |sells| == 0 then []
    else
      var init := sells[..|sells| - 1];
      var last := sells[|sells| - 1];
      assert sells == init + [last];
      LossesOf(init) + (if last.SellTrade? && last.profitLoss < 0.0 then [last.profitLoss] else [])
  }

  /** The positive holding periods of the sells; a same-day round trip is left out of the mean. */
  function HoldDaysOf(sells: seq<Trade>): (r: seq<real>)
    ensures |r| <= |sells|
    ensures forall i :: 0 <= i < |r| ==> r[i] >= 1.0
    ensures forall x :: x in r <==> exists t :: t in sells && t.SellTrade? && t.holdDays > 0 && t.holdDays as real == x
  {
    if |sells| == 0 then []
    else
      var init := sells[..|sells| - 1];
      var last := sells[|sells| - 1];
      assert sells == init + [last];
      HoldDaysOf(init) + (if last.SellTrade? && last.holdDays > 0 then [last.holdDays as real] else [])
  }

  /**
   * The gain list is taken sell by sell, in order: a log split in two gives
   * the two lists concatenated (`FiguresOfOne` gives what one sell adds).
   */
  lemma {:induction false} ProfitsAppend(a: seq<Trade>, b: seq<Trade>)
    ensures ProfitsOf(a + b) == ProfitsOf(a) + ProfitsOf(b)
    decreases |b|
  {
    if |b| == 0 {
      assert a + b == a;
    } else {
      var init := b[..|b| - 1];
      ProfitsAppend(a, init);
      assert (a + b)[..|a + b| - 1] == a + init;
    }
  }

  /** The same for the losses. */
  lemma {:induction false} LossesAppend(a: seq<Trade>, b: seq<Trade>)
    ensures LossesOf(a + b) == LossesOf(a) + LossesOf(b)
    decreases |b|
  {
    if |b| == 0 {
      assert a + b == a;
    } else {
      var init := b[..|b| - 1];
      LossesAppend(a, init);
      assert (a + b)[..|a + b| - 1] == a + init;
    }
  }

  /** The same for the holding periods. */
  lemma {:induction false} HoldDaysAppend(a: seq<Trade>, b: seq<Trade>)
    ensures HoldDaysOf(a + b) == HoldDaysOf(a) + HoldDaysOf(b)
    decreases |b|
  {
    if |b| == 0 {
      assert a + b == a;
    } else {
      var init := b[..|b| - 1];
      HoldDaysAppend(a, init);
      assert (a + b)[..|a + b| - 1] == a + init;
    }
  }

  /** A single sell contributes its profit, its loss or its holding period exactly when it qualifies. */
  lemma FiguresOfOne(t: Trade)
    ensures ProfitsOf([t]) == if t.SellTrade? && t.profitLoss > 0.0 then [t.profitLoss] else []
    ensures LossesOf([t]) == if t.SellTrade? && t.profitLoss < 0.0 then [t.profitLoss] else []
    ensures HoldDaysOf([t]) == if t.SellTrade? && t.holdDays > 0 then [t.holdDays as real] else []
  {
    assert [t][..0] == [];
  }

  /** No sell is both a winner and a loser, so winners and losers together are at most the sells. */
  lemma {:induction false} WinnersAndLosers(sells: seq<Trade>)
    ensures |ProfitsOf(sells)| + |LossesOf(sells)| <= |sells|
  {
    if |sells| > 0 {
      WinnersAndLosers(sells[..|sells| - 1]);
    }
  }

  /** `round(len(profits) / len(sell_trades) * 100, 2)`: the share of winning sells, a percentage. */
  function WinRate(wins: nat, sells: nat): (r: real)
    requires 0 < sells && wins <= sells
    ensures 0.0 <= r <= 100.0
    ensures wins == 0 ==> r == 0.0
    ensures wins == sells ==> r == 100.0
    ensures r == Numeric.Round2(wins as real / sells as real * 100.0)
  {
    var share := wins as real / sells as real * 100.0;
    Numeric.QuotientBetween(wins as real, sells as real, 0.0, 1.0);
    Numeric.RoundExactValues();
    Numeric.RoundAtMonotone(0.0, share, 100.0);
    Numeric.RoundAtMonotone(share, 100.0, 100.0);
    SelfQuotient(sells as real);
    Numeric.Round2(share)
  }

  /** A mean rounded to two decimals, 0 for an empty list (`avg_profit`, `avg_loss`). */
  function Mean2(xs: seq<real>): real {
    if |xs| > 0 then Numeric.Round2(Numeric.Sum(xs) / |xs| as real) else 0.0
  }

  /** `round(max(profits), 2)`, 0 for an empty list. */
  function MaxOrZero(xs: seq<real>): real {
    if |xs| > 0 then Numeric.Round2(Numeric.Max(xs)) else 0.0
  }

  /** `round(min(losses), 2)`, 0 for an empty list. */
  function MinOrZero(xs: seq<real>): real {
    if |xs| > 0 then Numeric.Round2(Numeric.Min(xs)) else 0.0
  }

  /** The mean holding period rounded to one decimal, 0 when no sell was held a day or more. */
  function MeanHold(holds: seq<real>): real {
    Numeric.Round1(if |holds| > 0 then Numeric.Sum(holds) / |holds| as real else 0.0)
  }

  /** Days from the first to the last trade of the log per sell, 0 for a single trade. */
  function TradeFrequency(trades: seq<Trade>, sells: nat): real
    requires |trades| > 0 && sells > 0
  {
    if |trades| >= 2 then (trades[|trades| - 1].executionDay - trades[0].executionDay) as real / sells as real
    else 0.0
  }

  /**
   * `_calculate_statistics`: all zeros for a log without sells; otherwise the
   * share of winning sells in percent, the days from the first to the last
   * trade per sell, totals, means and extremes of the gains and of the losses,
   * and the mean positive holding period, each rounded as returned.
   */
  function CalculateStatistics(trades: seq<Trade>): (r: Statistics)
    ensures SellCount(trades) == 0 ==> r == EmptyStatistics
  {
    var sells := SellsOf(trades);
    if |trades| == 0 || |sells| == 0 then EmptyStatistics
    else
      var profits := ProfitsOf(sells);
      var losses := LossesOf(sells);
      Statistics(
        WinRate(|profits|, |sells|),
        Numeric.Round2(TradeFrequency(trades, |sells|)),
        Numeric.Round2(Numeric.Sum(profits)),
        Numeric.Round2(Numeric.Sum(losses)),
        Mean2(profits),
        Mean2(losses),
        MaxOrZero(profits),
        MinOrZero(losses),
        MeanHold(HoldDaysOf(sells)))
  }

  /**
   * The gain figures: the total is non-negative, the mean lies between zero
   * and the largest gain, and the largest gain is part of the total.
   */
  lemma GainFigures(profits: seq<real>)
    requires forall i :: 0 <= i < |profits| ==> profits[i] > 0.0
    ensures 0.0 <= Mean2(profits) <= MaxOrZero(profits) <= Numeric.Round2(Numeric.Sum(profits))
  {
    Numeric.RoundExactValues();
    if |profits| > 0 {
      var top := Numeric.Max(profits);
      var mean := Numeric.Sum(profits) / |profits| as real;
      Numeric.MeanBetween(profits, 0.0, top);
      var k :| 0 <= k < |profits| && profits[k] == top;
      Numeric.SumAtLeastMember(profits, k);
      Numeric.RoundAtMonotone(0.0, mean, 100.0);
      Numeric.RoundAtMonotone(mean, top, 100.0);
      Numeric.RoundAtMonotone(top, Numeric.Sum(profits), 100.0);
    }
  }

  /**
   * The loss figures: the total is non-positive, the mean lies between the
   * deepest loss and zero, and the deepest loss is part of the total.
   */
  lemma LossFigures(losses: seq<real>)
    requires forall i :: 0 <= i < |losses| ==> losses[i] < 0.0
    ensures Numeric.Round2(Numeric.Sum(losses)) <= MinOrZero(losses) <= Mean2(losses) <= 0.0
  {
    Numeric.RoundExactValues();
    if |losses| > 0 {
      var bottom := Numeric.Min(losses);
      var mean := Numeric.Sum(losses) / |losses| as real;
      Numeric.MeanBetween(losses, bottom, 0.0);
      var negated := seq(|losses|, i requires 0 <= i < |losses| => -losses[i]);
      var k :| 0 <= k < |losses| && losses[k] == bottom;
      SumNegated(losses, negated);
      Numeric.SumAtLeastMember(negated, k);
      Numeric.RoundAtMonotone(Numeric.Sum(losses), bottom, 100.0);
      Numeric.RoundAtMonotone(bottom, mean, 100.0);
      Numeric.RoundAtMonotone(mean, 0.0, 100.0);
    } else {
      assert Numeric.Sum(losses) == 0.0;
    }
  }

  lemma {:induction false} SumNegated(xs: seq<real>, ys: seq<real>)
    requires |ys| == |xs| && forall i :: 0 <= i < |xs| ==> ys[i] == -xs[i]
    ensures Numeric.Sum(ys) == -Numeric.Sum(xs)
  {
    if |xs| > 0 {
      var xi, yi := xs[..|xs| - 1], ys[..|ys| - 1];
      assert forall i :: 0 <= i < |xi| ==> yi[i] == -xi[i];
      SumNegated(xi, yi);
    }
  }

  /** A mean of holding periods of a day or more is not negative. */
  lemma HoldFigure(holds: seq<real>)
    requires forall i :: 0 <= i < |holds| ==> holds[i] >= 1.0
    ensures MeanHold(holds) >= 0.0
  {
    Numeric.RoundExactValues();
    if |holds| > 0 {
      Numeric.MeanBetween(holds, 1.0, Numeric.Max(holds));
      Numeric.RoundAtMonotone(0.0, Numeric.Sum(holds) / |holds| as real, 10.0);
    }
  }

  /**
   * The statistics keep their signs and order: the success rate is a
   * percentage, gains are non-negative with their mean no larger than the
   * largest and the largest no larger than the total, losses mirror that
   * below zero, and the mean holding period is not negative.
   */
  lemma StatisticsBounds(trades: seq<Trade>)
    ensures var r := CalculateStatistics(trades);
      && 0.0 <= r.successRate <= 100.0
      && 0.0 <= r.avgProfit <= r.maxProfit <= r.totalProfit
      && r.totalLoss <= r.maxLoss <= r.avgLoss <= 0.0
      && 0.0 <= r.avgHoldDays
  {
    var sells := SellsOf(trades);
    if |trades| > 0 && |sells| > 0 {
      GainFigures(ProfitsOf(sells));
      LossFigures(LossesOf(sells));
      HoldFigure(HoldDaysOf(sells));
    }
  }

  /** The bars' day numbers never go backwards (the frame's index is a date index in time order). */
  predicate DaysAscending(bars: seq<Bar>) {
    forall i, j :: 0 <= i <= j < |bars| ==> bars[i].day <= bars[j].day
  }

  /** In a finished log no trade is filled at an earlier bar than the first one. */
  lemma {:induction false} FillsInOrder(bars: seq<Bar>, trades: seq<Trade>, j: nat)
    requires LogTiming(bars, trades) && j < |trades|
    ensures trades[0].executionBar <= trades[j].executionBar
  {
    if j > 0 {
      FillsInOrder(bars, trades, j - 1);
      if trades[j].signal.AtBar? {
        assert FilledNextOpen(bars, trades[j]);
      }
    }
  }

  /** Rounding the log for output keeps every entry's kind, so the sells are counted alike. */
  lemma {:induction false} ReportKeepsSellCount(trades: seq<Trade>)
    ensures SellCount(ReportAll(trades)) == SellCount(trades)
  {
    if |trades| > 0 {
      var init := trades[..|trades| - 1];
      assert ReportAll(trades)[..|trades| - 1] == ReportAll(init);
      ReportKeepsSellCount(init);
    }
  }

  /** With days in time order, the rounded days-between-trades figure of a finished log is not negative. */
  lemma FrequencyNotNegative(bars: seq<Bar>, log: seq<Trade>, n: nat)
    requires LogTiming(bars, log) && DaysAscending(bars) && |log| > 0 && n > 0
    ensures Numeric.Round2(TradeFrequency(ReportAll(log), n)) >= 0.0
  {
    var t := ReportAll(log);
    Numeric.RoundExactValues();
    if |log| >= 2 {
      FillsInOrder(bars, log, |log| - 1);
      var first, last := log[0], log[|log| - 1];
      assert first.executionDay == bars[first.executionBar].day;
      assert last.executionDay == bars[last.executionBar].day;
      var span := (t[|t| - 1].executionDay - t[0].executionDay) as real;
      Numeric.DivideMonotone(0.0, span, n as real);
      Numeric.RoundAtMonotone(0.0, TradeFrequency(t, n), 100.0);
    }
  }

  /**
   * Statistics of a simulated log: all zeros exactly when nothing was traded;
   * otherwise there is a sell for every two trades, and with days in time
   * order the days between trades are not negative.
   */
  lemma ExecutedStatistics(bars: seq<Bar>, buys: seq<int>, sells: seq<int>)
    requires Signals(bars, buys, sells) && PositivePrices(bars) && DaysAscending(bars)
    ensures var t := ReportAll(Execute(bars, buys, sells).trades);
      var r := CalculateStatistics(t);
      && (|t| == 0 ==> r == EmptyStatistics)
      && (|t| > 0 ==> 1 <= |SellsOf(t)| == |t| / 2)
      && r.avgTradeFrequency >= 0.0
  {
    var log := Execute(bars, buys, sells).trades;
    ExecuteLog(bars, buys, sells);
    TradeLogBalanced(bars, buys, sells);
    ReportKeepsSellCount(log);
    if |log| > 0 {
      FrequencyNotNegative(bars, log, SellCount(log));
    }
  }

  // ---- The simulation result ----

  /** The "trading_summary" dictionary. */
  datatype TradingSummary = TradingSummary(
    initialBalance: real, finalBalance: real, totalReturn: real, returnPercentage: real,
    totalTrades: nat, successRate: real, avgDaysBetweenTrades: real,
    buyIndicator: string, sellIndicator: string)

  /** What `simulate` returns without an error: the summary, the rounded trade log and the statistics. */
  datatype Simulation = Simulation(summary: TradingSummary, trades: seq<Trade>, statistics: Statistics)

  const InsufficientDataError: string := "Insufficient data for trading simulation (need >= 50 data points)"

  function SummaryOf(finalBalance: real, trades: seq<Trade>, stats: Statistics,
                     buyIndicator: string, sellIndicator: string): TradingSummary
  {
    TradingSummary(InitialBalance, Numeric.Round2(finalBalance), Numeric.Round2(finalBalance - InitialBalance),
                   Numeric.Round2((finalBalance - InitialBalance) / InitialBalance * 100.0),
                   |trades|, stats.successRate, stats.avgTradeFrequency, buyIndicator, sellIndicator)
  }

  /**
   * The rounded return keeps the sign of the gain: no worse than the start
   * gives a non-negative return and percentage, no better a non-positive one,
   * and the untouched starting balance a zero return.
   */
  lemma SummarySigns(finalBalance: real, trades: seq<Trade>, stats: Statistics, bi: string, si: string)
    ensures var m := SummaryOf(finalBalance, trades, stats, bi, si);
      && (finalBalance >= InitialBalance ==> m.totalReturn >= 0.0 && m.returnPercentage >= 0.0)
      && (finalBalance <= InitialBalance ==> m.totalReturn <= 0.0 && m.returnPercentage <= 0.0)
      && (finalBalance == InitialBalance ==>
            m.finalBalance == InitialBalance && m.totalReturn == 0.0 && m.returnPercentage == 0.0)
      && (finalBalance > 0.0 ==> m.finalBalance >= 0.0)
  {
    var gain := finalBalance - InitialBalance;
    var pct := gain / InitialBalance * 100.0;
    Numeric.RoundExactValues();
    Numeric.RoundWhole(10000);
    if gain >= 0.0 {
      Numeric.RoundAtMonotone(0.0, gain, 100.0);
      Numeric.RoundAtMonotone(0.0, pct, 100.0);
    }
    if gain <= 0.0 {
      Numeric.RoundAtMonotone(gain, 0.0, 100.0);
      Numeric.RoundAtMonotone(pct, 0.0, 100.0);
    }
    if finalBalance > 0.0 {
      Numeric.RoundAtMonotone(0.0, finalBalance, 100.0);
    }
  }

  /**
   * `simulate`: an error below 50 bars; otherwise the signals drive the
   * trade log, whose rounded form is returned with its statistics and summary.
   */
  function SimulationOf(bars: seq<Bar>, ema: Ema, buyIndicator: string, sellIndicator: string,
                        buyThreshold: Option<real>, sellThreshold: Option<real>): (r: Result<Simulation>)
    requires LengthPreserving(ema) && PositivePrices(bars)
    ensures r.Err? <==> |bars| < MinBars
    ensures r.Err? ==> r.error == InsufficientDataError
  {
    if |bars| < MinBars then Err(InsufficientDataError)
    else
      var buys := SignalDetector.BuyFlags(bars, ema, buyIndicator, buyThreshold);
      var sells := SignalDetector.SellFlags(bars, ema, sellIndicator, sellThreshold);
      var final := Execute(bars, buys, sells);
      var trades := ReportAll(final.trades);
      var stats := CalculateStatistics(trades);
      Ok(Simulation(SummaryOf(final.balance, trades, stats, buyIndicator, sellIndicator), trades, stats))
  }

  /**
   * A finished simulation: the log holds whole round trips and the summary
   * counts them all; the final balance is positive; the return keeps the sign
   * of the gain; and a run without trades keeps the starting balance with zero
   * return and empty statistics.
   */
  lemma SimulationOutcome(bars: seq<Bar>, ema: Ema, buyIndicator: string, sellIndicator: string,
                          buyThreshold: Option<real>, sellThreshold: Option<real>)
    requires LengthPreserving(ema) && PositivePrices(bars) && |bars| >= MinBars
    ensures var r := SimulationOf(bars, ema, buyIndicator, sellIndicator, buyThreshold, sellThreshold).value;
      && |r.trades| % 2 == 0 && r.summary.totalTrades == |r.trades|
      && r.summary.finalBalance >= 0.0
      && r.summary.successRate == r.statistics.successRate
      && (r.trades == [] ==>
            r.summary.finalBalance == InitialBalance && r.summary.totalReturn == 0.0 &&
            r.summary.returnPercentage == 0.0 && r.statistics == EmptyStatistics)
  {
    var buys := SignalDetector.BuyFlags(bars, ema, buyIndicator, buyThreshold);
    var sells := SignalDetector.SellFlags(bars, ema, sellIndicator, sellThreshold);
    var final := Execute(bars, buys, sells);
    var trades := ReportAll(final.trades);
    ExecuteLog(bars, buys, sells);
    SummarySigns(final.balance, trades, CalculateStatistics(trades), buyIndicator, sellIndicator);
  }

  /** `simulate` over the mutable steps: signals, the trade loop, rounding of the log, statistics. */
  method Simulate(bars: seq<Bar>, ema: Ema, buyIndicator: string, sellIndicator: string,
                  buyThreshold: Option<real>, sellThreshold: Option<real>)
    returns (r: Result<Simulation>)
    requires LengthPreserving(ema) && PositivePrices(bars)
    ensures r == SimulationOf(bars, ema, buyIndicator, sellIndicator, buyThreshold, sellThreshold)
  {
    if |bars| == 0 || |bars| < MinBars {
      return Err(InsufficientDataError);
    }
    var buySignals, sellSignals := SignalDetector.GenerateSignals(bars, ema, buyIndicator, sellIndicator,
                                                                  buyThreshold, sellThreshold);
    var log, finalBalance := ExecuteTrades(bars, buySignals, sellSignals);
    var trades := ReportAll(log);
    var stats := CalculateStatistics(trades);
    var summary := SummaryOf(finalBalance, trades, stats, buyIndicator, sellIndicator);
    r := Ok(Simulation(summary, trades, stats));
  }
}
