/** The whole backtest: one trade a day at most, in any mode, and its compounded result. */
module IntradayBacktest {
  import opened CandidateSelection
  import opened Common
  import opened DaySignals
  import opened EquityCurve
  import opened TradeSimulation

  // ---- the trade of a day ------------------------------------------------------------------

  /** The trade of the day, or None if there is none or the day raises. */
  ghost function TradeOfDay(s: Setup, mode: Mode, day: int): Option<Trade> {
    if exists t :: IsDayTrade(s, mode, day, t) then
      var t :| IsDayTrade(s, mode, day, t);
      t
    else None
  }

  ghost function TradeOn(s: Setup, mode: Mode): int -> Option<Trade> {
    (day: int) => TradeOfDay(s, mode, day)
  }

  lemma SimulatedOnce(
    ticker: string, bars: seq<Bar>, entry: nat, rules: Rules, left: Trade, right: Trade)
    requires entry < |bars| && EntryCost(bars, entry, rules) != 0.0
    requires IsSimulated(ticker, bars, entry, rules, left)
    requires IsSimulated(ticker, bars, entry, rules, right)
    ensures left == right
  {
    if !NoExit(bars, entry, rules) {
      var k := FindFirst(bars, entry, rules);
    }
  }

  /** A day has one trade at most. */
  lemma DayTradeIsTheOne(s: Setup, mode: Mode, day: int, t: Option<Trade>)
    requires IsDayTrade(s, mode, day, t)
    ensures TradeOn(s, mode)(day) == t
  {
    var u := TradeOfDay(s, mode, day);
    assert IsDayTrade(s, mode, day, u);
    if t.Some? {
      var signal := DaySignal(s, mode, day).value.value;
      SimulatedOnce(
        signal.ticker, TodayOf(s, signal, day), signal.entry, s.rules, t.value, u.value);
    }
  }

  lemma TradedDayIsFine(s: Setup, mode: Mode, day: int, t: Option<Trade>)
    requires IsDayTrade(s, mode, day, t)
    ensures !DayRaises(s, mode, day)
  {
  }

  // ---- the loop over the days ----------------------------------------------------------------

  ghost predicate SomeDayRaises(s: Setup, mode: Mode, days: seq<int>) {
    exists day :: day in days && DayRaises(s, mode, day)
  }

  /** The running figures after some trades. */
  ghost predicate Accounts(
    trades: seq<Trade>, fraction: real, initial: real, equity: real, peak: real, drawdown: real)
  {
    var curve := Curve(initial, fraction, trades);
    equity == Last(curve) && peak == Peak(curve) && drawdown == RunningDrawdown(curve)
  }

  lemma AccountsStep(
    trades: seq<Trade>, fraction: real, initial: real, equity: real, peak: real, drawdown: real,
    trade: Trade)
    requires Accounts(trades, fraction, initial, equity, peak, drawdown)
    ensures var equity' := Grown(equity, fraction, trade.returnRate);
            var peak' := MaxReal(peak, equity');
            Accounts(
              trades + [trade], fraction, initial, equity', peak',
              if peak' > 0.0 then MinReal(drawdown, Fall(equity', peak')) else drawdown)
  {
    var before, after := Curve(initial, fraction, trades), Curve(initial, fraction, trades + [trade]);
    assert (trades + [trade])[..|trades|] == trades;
    assert after[..|before|] == before;
  }

  /** The trades of the first `i` days, none of which raised. */
  ghost predicate TradedUntil(s: Setup, mode: Mode, days: seq<int>, i: nat, trades: seq<Trade>)
    requires i <= |days|
  {
    && trades == TradesOn(days[..i], TradeOn(s, mode))
    && forall j :: 0 <= j < i ==> IsDayTrade(s, mode, days[j], TradeOn(s, mode)(days[j]))
  }

  lemma TradedStep(
    s: Setup, mode: Mode, days: seq<int>, i: nat, trades: seq<Trade>, trade: Option<Trade>)
    requires i < |days| && TradedUntil(s, mode, days, i, trades)
    requires IsDayTrade(s, mode, days[i], trade)
    ensures TradedUntil(
              s, mode, days, i + 1, if trade.Some? then trades + [trade.value] else trades)
  {
    DayTradeIsTheOne(s, mode, days[i], trade);
    TradesOnStep(days, TradeOn(s, mode), i);
  }

  lemma TradedAll(
    s: Setup, mode: Mode, days: seq<int>, trades: seq<Trade>, fraction: real, initial: real)
    requires TradedUntil(s, mode, days, |days|, trades)
    ensures trades == TradesOn(days, TradeOn(s, mode)) && !SomeDayRaises(s, mode, days)
    ensures forall day :: day in days ==> IsDayTrade(s, mode, day, TradeOn(s, mode)(day))
    ensures CanTrade(s) && initial > 0.0 && 0.0 <= fraction <= 1.0 ==>
              NeverRuined(days, TradeOn(s, mode), fraction, initial)
  {
    assert days[..|days|] == days;
    forall day | day in days ensures !DayRaises(s, mode, day) {
      TradedDayIsFine(s, mode, day, TradeOn(s, mode)(day));
    }
    if CanTrade(s) && initial > 0.0 && 0.0 <= fraction <= 1.0 {
      BacktestNeverRuins(s, mode, days, TradeOn(s, mode), fraction, initial);
    }
  }

  /**
   * The run raises if and only if one of its days does; otherwise it reports on the trades of its
   * days, and where trading is sane it is never ruined.
   */
  method RunBacktest(s: Setup, mode: Mode, days: seq<int>, fraction: real, initial: real)
    returns (result: Outcome<Result>)
    ensures result.Raises? <==> SomeDayRaises(s, mode, days)
    ensures result.Gives? ==>
              && (forall day :: day in days ==> IsDayTrade(s, mode, day, TradeOn(s, mode)(day)))
              && result.value == Report(days, TradeOn(s, mode), fraction, initial)
    ensures result.Gives? && CanTrade(s) && initial > 0.0 && 0.0 <= fraction <= 1.0 ==>
              NeverRuined(days, TradeOn(s, mode), fraction, initial)
  {
    var equity, peak, maxDrawdown := initial, initial, 0.0;
    var trades: seq<Trade> := [];
    var tradedDays := 0;
    for i := 0 to |days|
      invariant TradedUntil(s, mode, days, i, trades) && tradedDays == |trades|
      invariant Accounts(trades, fraction, initial, equity, peak, maxDrawdown)
    {
      var trade := DayTrade(s, mode, days[i]);
      if trade.Raises? {
        return Raises;
      }
      TradedStep(s, mode, days, i, trades, trade.value);
      if trade.value.None? {
        continue;
      }
      AccountsStep(trades, fraction, initial, equity, peak, maxDrawdown, trade.value.value);
      equity := Grown(equity, fraction, trade.value.value.returnRate);
      peak := MaxReal(peak, equity);
      if peak > 0.0 {
        maxDrawdown := MinReal(maxDrawdown, Fall(equity, peak));
      }
      trades := trades + [trade.value.value];
      tradedDays := tradedDays + 1;
    }
    TradedAll(s, mode, days, trades, fraction, initial);
    result := Gives(Summarize(
      trades, if initial != 0.0 then Fall(equity, initial) else 0.0, maxDrawdown,
      |days| - tradedDays));
  }
}
