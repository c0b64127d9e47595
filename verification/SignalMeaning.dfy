/** Which signal takes the day and what a run reports, said on bars, times and trades alone. */
module SignalMeaning {
  import opened CandidateMeaning
  import opened CandidateSelection
  import opened Common
  import opened DaySignals
  import E = EquityCurve
  import opened Grouping
  import opened Sorting
  import opened TradeSimulation

  // ---- the signal of a ticker --------------------------------------------------

  /** The bar reaches the price, within the window if there is one. */
  predicate Reaches(b: Bar, price: real, w: Option<Window>) {
    b.high >= price && (w.Some? ==> w.value.start <= b.time && b.time < w.value.end)
  }

  /** The bar before the entry is the first that reaches the price; the entry bar exists. */
  ghost predicate FollowsReach(signal: Signal, today: seq<Bar>, price: real, w: Option<Window>) {
    && 1 <= signal.entry < |today| && signal.time == today[signal.entry - 1].time
    && Reaches(today[signal.entry - 1], price, w)
    && forall j :: 0 <= j < signal.entry - 1 ==> !Reaches(today[j], price, w)
  }

  /** The ticker opens well and first reaches its breakout price on the bar before the entry. */
  ghost predicate IsSignal(
    signal: Signal, today: seq<Bar>, previous: seq<Bar>, w: Option<Window>, f: Filters)
  {
    && |today| >= 2 && previous != [] && OpensWell(today, previous, f)
    && exists price :: IsBreakout(price, today[0].open, previous, f.breakoutK)
                       && FollowsReach(signal, today, price, w)
  }

  /** The breakout price is asked for and does not exist; without a window before the filters are. */
  ghost predicate HasNoPrice(today: seq<Bar>, previous: seq<Bar>, w: Option<Window>, f: Filters) {
    && |today| >= 2 && previous != [] && (w.Some? ==> OpensWell(today, previous, f))
    && forall price :: !IsBreakout(price, today[0].open, previous, f.breakoutK)
  }

  lemma FirstReach(today: seq<Bar>, price: real, w: Option<Window>, signal: Signal)
    requires |today| >= 2
    ensures FirstTrigger(today, 0, price, w) == Some(signal.entry - 1)
            && signal.time == today[signal.entry - 1].time
       <==> FollowsReach(signal, today, price, w)
  {
    assert forall j :: 0 <= j < |today| ==> (Triggers(today, j, price, w) <==> Reaches(today[j], price, w));
  }

  lemma TickerSignalStated(s: Setup, ticker: string, day: int, w: Option<Window>, signal: Signal)
    ensures var bars := BarsOf(s.history, ticker);
            var today, previous := BarsForDay(bars, day), PreviousDayBars(bars, day);
            && (SignalOf(s, ticker, day, w).Raises? <==> HasNoPrice(today, previous, w, s.filters))
            && (SignalOf(s, ticker, day, w) == Gives(Some(signal))
                <==> signal.ticker == ticker && IsSignal(signal, today, previous, w, s.filters))
  {
    var bars := BarsOf(s.history, ticker);
    var today, previous := BarsForDay(bars, day), PreviousDayBars(bars, day);
    if |today| >= 2 && previous != [] {
      OpensWellStated(today, previous, s.filters);
      var price := BreakoutPrice(
        today[0].open, Highest(previous), Lowest(previous), s.filters.breakoutK);
      forall p ensures IsBreakout(p, today[0].open, previous, s.filters.breakoutK) <==> price == Gives(p) {
        BreakoutStated(p, today[0].open, previous, s.filters.breakoutK);
      }
      if price.Gives? {
        FirstReach(today, price.value, w, signal);
      }
    }
  }

  // ---- the first signal --------------------------------------------------------

  /** An earlier trigger, or the same and a ticker not after the other's. */
  ghost predicate NotLater(a: Signal, b: Signal) {
    a.time < b.time || (a.time == b.time && TextLeq(a.ticker, b.ticker))
  }

  ghost predicate SignalsOn(s: Setup, t: string, day: int, w: Option<Window>, signal: Signal) {
    var bars := BarsOf(s.history, t);
    signal.ticker == t
    && IsSignal(signal, BarsForDay(bars, day), PreviousDayBars(bars, day), w, s.filters)
  }

  ghost predicate RaisesOn(s: Setup, t: string, day: int, w: Option<Window>) {
    var bars := BarsOf(s.history, t);
    HasNoPrice(BarsForDay(bars, day), PreviousDayBars(bars, day), w, s.filters)
  }

  /** What the search among some tickers gives: an error, the first of their signals, or none. */
  ghost predicate IsFirst(
    r: Outcome<Option<Signal>>, s: Setup, active: seq<string>, day: int, w: Option<Window>)
  {
    && (r.Raises? <==> exists t :: t in active && RaisesOn(s, t, day, w))
    && (r == Gives(None) ==> forall t, signal :: t in active ==> !SignalsOn(s, t, day, w, signal))
    && (r.Gives? && r.value.Some? ==>
          && r.value.value.ticker in active && SignalsOn(s, r.value.value.ticker, day, w, r.value.value)
          && forall t, signal :: t in active && SignalsOn(s, t, day, w, signal) ==>
                                   NotLater(r.value.value, signal))
  }

  lemma {:induction false} GatherRaises<T(!new)>(
    one: string -> Outcome<Option<T>>, tickers: seq<string>)
    ensures Gather(one, tickers).Raises? <==> exists t :: t in tickers && one(t).Raises?
  {
    if tickers != [] {
      var front, last := tickers[..|tickers| - 1], tickers[|tickers| - 1];
      GatherRaises(one, front);
      assert forall t :: t in tickers <==> t in front || t == last;
    }
  }

  ghost predicate IsLeast(
    r: Outcome<Option<Signal>>, one: string -> Outcome<Option<Signal>>, active: seq<string>)
  {
    && (r.Raises? <==> exists t :: t in active && one(t).Raises?)
    && (r == Gives(None) ==> forall t :: t in active ==> one(t) == Gives(None))
    && (r.Gives? && r.value.Some? ==>
          && (exists t :: t in active && one(t) == r)
          && forall t :: t in active && one(t).Gives? && one(t).value.Some? ==>
                           NotLater(r.value.value, one(t).value.value))
  }

  lemma LeastStated(one: string -> Outcome<Option<Signal>>, active: seq<string>)
    ensures IsLeast(
              match Gather(one, active) case Raises => Raises case Gives(s) => Gives(Earliest(s)),
              one, active)
  {
    GatherRaises(one, active);
    if Gather(one, active).Gives? {
      var signals := Gather(one, active).value;
      if signals != [] {
        var ticker := EarliestOfGather(one, active);
      } else {
        forall t | t in active ensures one(t) == Gives(None) {
          if one(t).Gives? && one(t).value.Some? {
            GatherHolds(one, active, t, one(t).value.value);
          }
        }
      }
    }
  }

  lemma TickerOutcome(s: Setup, t: string, day: int, w: Option<Window>)
    ensures var r := SignalOn(s, day, w)(t);
            && (r.Raises? <==> RaisesOn(s, t, day, w))
            && forall signal :: r == Gives(Some(signal)) <==> SignalsOn(s, t, day, w, signal)
  {
    var some := Signal(0, t, 0);
    TickerSignalStated(s, t, day, w, some);
    forall signal
      ensures SignalOf(s, t, day, w) == Gives(Some(signal)) <==> SignalsOn(s, t, day, w, signal)
    {
      TickerSignalStated(s, t, day, w, signal);
    }
  }

  /** The signal that is chosen comes first, by the time of its trigger and then by its ticker. */
  lemma FirstSignalStated(s: Setup, active: seq<string>, day: int, w: Option<Window>)
    ensures IsFirst(FirstSignal(s, active, day, w), s, active, day, w)
  {
    var one := SignalOn(s, day, w);
    LeastStated(one, active);
    assert IsLeast(FirstSignal(s, active, day, w), one, active);
    forall t
      ensures one(t).Raises? <==> RaisesOn(s, t, day, w)
      ensures forall signal :: one(t) == Gives(Some(signal)) <==> SignalsOn(s, t, day, w, signal)
    {
      TickerOutcome(s, t, day, w);
    }
    FirstOfLeast(FirstSignal(s, active, day, w), one, s, active, day, w);
  }

  lemma FirstOfLeast(
    r: Outcome<Option<Signal>>, one: string -> Outcome<Option<Signal>>, s: Setup,
    active: seq<string>, day: int, w: Option<Window>)
    requires IsLeast(r, one, active)
    requires forall t :: one(t).Raises? <==> RaisesOn(s, t, day, w)
    requires forall t, signal :: one(t) == Gives(Some(signal)) <==> SignalsOn(s, t, day, w, signal)
    ensures IsFirst(r, s, active, day, w)
  {
    if r.Gives? && r.value.Some? {
      var t :| t in active && one(t) == r;
      assert SignalsOn(s, t, day, w, r.value.value);
    }
  }

  // ---- windows and active tickers ------------------------------------------------

  ghost predicate Ascending(times: seq<int>) {
    forall i, j :: 0 <= i < j < |times| ==> times[i] < times[j]
  }

  /** Some ticker has a bar at that time of the day. */
  ghost predicate HasBarAt(s: Setup, tickers: seq<string>, day: int, time: int) {
    exists t, b :: t in tickers && b in BarsForDay(BarsOf(s.history, t), day) && b.time == time
  }

  lemma {:induction false} AllTimesStated(s: Setup, tickers: seq<string>, day: int, time: int)
    ensures time in AllTimes(s, tickers, day) <==> HasBarAt(s, tickers, day, time)
  {
    if tickers != [] {
      var front, last := tickers[..|tickers| - 1], tickers[|tickers| - 1];
      AllTimesStated(s, front, day, time);
      assert forall t :: t in tickers <==> t in front || t == last;
      var bars := BarsForDay(BarsOf(s.history, last), day);
      if b :| b in bars && b.time == time {
        var i :| 0 <= i < |bars| && bars[i] == b;
        assert Map(TimeOf, bars)[i] == time;
      }
    }
  }

  /** The day's times are those of its bars, once each and ascending. */
  lemma TimesStated(s: Setup, day: int)
    ensures Ascending(DayTimes(s, day))
    ensures forall time :: time in DayTimes(s, day) <==> HasBarAt(s, s.tickers, day, time)
  {
    var all, times := AllTimes(s, s.tickers, day), DayTimes(s, day);
    DistinctFacts(all);
    SortSorts(IntLeq, Distinct(all));
    PermutedNoDuplicates(Distinct(all), times);
    forall i, j | 0 <= i < j < |times| ensures times[i] < times[j] {
      assert IntLeq(times[i], times[j]);
    }
    forall time ensures time in times <==> HasBarAt(s, s.tickers, day, time) {
      AllTimesStated(s, s.tickers, day, time);
    }
  }

  /** A window of fifteen minutes opens at every third time that another follows. */
  lemma {:induction false} WindowsStated(times: seq<int>, i: nat, k: nat)
    ensures k < |WindowsFrom(times, i)| <==> i + 3 * k + 1 < |times|
    ensures k < |WindowsFrom(times, i)| ==>
              WindowsFrom(times, i)[k] == Window(times[i + 3 * k], times[i + 3 * k] + 900)
    decreases k
  {
    if k > 0 && i + 1 < |times| {
      WindowsStated(times, i + 3, k - 1);
      assert i + 3 + 3 * (k - 1) == i + 3 * k;
    }
  }

  /** Where a ticker is first named. */
  ghost predicate FirstNamed(names: seq<string>, x: string, k: nat) {
    k < |names| && names[k] == x && forall j :: 0 <= j < k ==> names[j] != x
  }

  /** The names once each, in the order in which they are first named. */
  ghost predicate InNamedOrder(list: seq<string>, names: seq<string>) {
    forall i, j, k, l ::
      0 <= i < j < |list| && FirstNamed(names, list[i], k) && FirstNamed(names, list[j], l) ==> k < l
  }

  lemma {:induction false} NamesStated(names: seq<string>)
    ensures InNamedOrder(Distinct(names), names)
  {
    if names != [] {
      var front, last := names[..|names| - 1], names[|names| - 1];
      var before, list := Distinct(front), Distinct(names);
      NamesStated(front);
      DistinctFacts(front);
      forall i, j, k, l | 0 <= i < j < |list| && FirstNamed(names, list[i], k)
                          && FirstNamed(names, list[j], l)
        ensures k < l
      {
        NamedBefore(names, list[i], k);
        if j < |before| {
          NamedBefore(names, list[j], l);
        } else {
          assert list[j] !in front;
        }
      }
    }
  }

  lemma NamedBefore(names: seq<string>, x: string, k: nat)
    requires names != [] && FirstNamed(names, x, k) && x in names[..|names| - 1]
    ensures FirstNamed(names[..|names| - 1], x, k)
  {
    var front := names[..|names| - 1];
    var i :| 0 <= i < |front| && front[i] == x;
    assert k <= i by {
      assert names[i] == x;
    }
  }

  /** The merged list: the fixed tickers and then the refreshed ones, once each, up to the limit. */
  lemma MergedStated(fixed: seq<string>, refreshed: seq<string>, limit: int)
    ensures var merged, names := Merged(fixed, refreshed, limit), fixed + refreshed;
            && NoDuplicates(merged) && InNamedOrder(merged, names)
            && (forall t :: t in merged ==> t in fixed || t in refreshed)
            && |merged| <= (if limit < 0 then 0 else limit)
            && (|merged| < limit ==> forall t :: t in fixed || t in refreshed ==> t in merged)
  {
    var names := fixed + refreshed;
    NamesStated(names);
    DistinctFacts(names);
    var all := Distinct(names);
    var merged := Merged(fixed, refreshed, limit);
    assert merged == all[..|merged|];
    forall t | t in merged ensures t in fixed || t in refreshed {
      assert t in all && t in names;
    }
    if |merged| < limit {
      assert merged == all;
    }
  }

  // ---- the day -----------------------------------------------------------------

  /** The signal of the day, looked for among all tickers or window by window among the active. */
  ghost predicate IsDaySignal(signal: Signal, s: Setup, mode: Mode, day: int, windows: seq<Window>, m: nat) {
    if mode == Fixed then IsFirst(Gives(Some(signal)), s, s.tickers, day, None)
    else
      && m < |windows|
      && (forall j :: 0 <= j <= m ==> Active(s, mode, day, windows[j].start).Gives?)
      && (forall j :: 0 <= j < m ==>
            IsFirst(Gives(None), s, Active(s, mode, day, windows[j].start).value, day, Some(windows[j])))
      && IsFirst(Gives(Some(signal)), s, Active(s, mode, day, windows[m].start).value, day,
           Some(windows[m]))
  }

  /** In every mode the signal of the day comes first where it is looked for, and nowhere before. */
  lemma DaySignalStated(s: Setup, mode: Mode, day: int, signal: Signal) returns (m: nat)
    requires DaySignal(s, mode, day) == Gives(Some(signal))
    ensures IsDaySignal(signal, s, mode, day, WindowsFrom(DayTimes(s, day), 0), m)
  {
    m := 0;
    if mode == Fixed {
      FirstSignalStated(s, s.tickers, day, None);
    } else {
      var windows := WindowsFrom(DayTimes(s, day), 0);
      m := ScanStops(s, mode, day, windows, signal);
      forall j | 0 <= j <= m
        ensures Active(s, mode, day, windows[j].start).Gives?
        ensures IsFirst(SignalIn(s, mode, day, windows[j]), s,
                  Active(s, mode, day, windows[j].start).value, day, Some(windows[j]))
      {
        FirstSignalStated(s, Active(s, mode, day, windows[j].start).value, day, Some(windows[j]));
      }
    }
  }

  // ---- the report --------------------------------------------------------------

  /** A mean is zero of nothing, and otherwise the sum when multiplied by the count. */
  predicate IsMean(mean: real, sum: real, count: nat) {
    if count == 0 then mean == 0.0 else mean * count as real == sum
  }

  function ReturnOf(t: Trade): real { t.returnRate }

  function MinutesOf(t: Trade): real { t.holdingMinutes }

  predicate Won(t: Trade) { t.returnRate > 0.0 }

  function LeftBy(reason: Reason): Trade -> bool { (t: Trade) => t.reason == reason }

  /** The longest holding time, zero without trades. */
  ghost predicate IsLongest(x: real, trades: seq<Trade>) {
    if trades == [] then x == 0.0
    else (forall t :: t in trades ==> t.holdingMinutes <= x)
         && exists t :: t in trades && t.holdingMinutes == x
  }

  /** The figures of a run, by its trades and its days. */
  ghost predicate IsReport(r: E.Result, days: seq<int>, tradeOn: int -> Option<Trade>) {
    var traded := Filter((d: int) => tradeOn(d).Some?, days);
    && |r.trades| == |traded| && (forall i :: 0 <= i < |traded| ==> tradeOn(traded[i]) == Some(r.trades[i]))
    && r.tradeCount == |r.trades| && r.zeroTradeDays == |days| - |traded|
    && IsMean(r.averageReturn, SumBy(ReturnOf, r.trades), |r.trades|)
    && IsMean(r.winRate, CountBy(Won, r.trades) as real, |r.trades|)
    && IsMean(r.averageHolding, SumBy(MinutesOf, r.trades), |r.trades|)
    && IsLongest(r.maxHolding, r.trades)
    && r.stopLossCount == CountBy(LeftBy(StopLoss), r.trades)
    && r.takeProfitCount == CountBy(LeftBy(TakeProfit), r.trades)
    && r.trailingStopCount == CountBy(LeftBy(TrailingStop), r.trades)
    && r.endOfDayCount == CountBy(LeftBy(EndOfDay), r.trades)
  }

  lemma {:induction false} MapSum<T>(f: T -> real, g: T -> real, h: real -> real, s: seq<T>)
    requires forall x :: x in s ==> h(f(x)) == g(x)
    ensures SumBy(h, Map(f, s)) == SumBy(g, s)
  {
    if s != [] {
      MapSum(f, g, h, s[1..]);
      assert Map(f, s)[1..] == Map(f, s[1..]);
    }
  }

  lemma MeanStated(values: seq<real>, sum: real, count: nat)
    requires sum == SumBy(E.Same, values) && count == |values|
    ensures IsMean(E.Average(values), sum, count)
  {
  }

  lemma AverageStated(f: Trade -> real, g: Trade -> real, trades: seq<Trade>)
    requires forall t :: t in trades ==> f(t) == g(t)
    ensures IsMean(E.Average(Map(f, trades)), SumBy(g, trades), |trades|)
  {
    MapSum(f, g, E.Same, trades);
    MeanStated(Map(f, trades), SumBy(g, trades), |trades|);
  }

  function OneIfWon(t: Trade): real { if Won(t) then 1.0 else 0.0 }

  lemma {:induction false} OnesAreCounted(trades: seq<Trade>)
    ensures SumBy(OneIfWon, trades) == CountBy(Won, trades) as real
  {
    if trades != [] {
      OnesAreCounted(trades[1..]);
    }
  }

  lemma {:induction false} CountsAgree<T>(p: T -> bool, q: T -> bool, s: seq<T>)
    requires forall x :: x in s ==> p(x) == q(x)
    ensures CountBy(p, s) == CountBy(q, s)
  {
    if s != [] {
      CountsAgree(p, q, s[1..]);
    }
  }

  lemma ExitsStated(trades: seq<Trade>, reason: Reason)
    ensures E.ExitCount(trades, reason) == CountBy(LeftBy(reason), trades)
  {
    CountsAgree((t: Trade) => t.reason == reason, LeftBy(reason), trades);
  }

  lemma {:induction false} LongestStated(trades: seq<Trade>)
    ensures IsLongest(E.LongestHolding(trades), trades)
  {
    if |trades| > 1 {
      var front, last := trades[..|trades| - 1], trades[|trades| - 1];
      LongestStated(front);
      assert forall t :: t in trades <==> t in front || t == last;
    }
  }

  lemma {:induction false} TradesStated(days: seq<int>, tradeOn: int -> Option<Trade>)
    ensures var traded := Filter((d: int) => tradeOn(d).Some?, days);
            var trades := E.TradesOn(days, tradeOn);
            |trades| == |traded| && forall i :: 0 <= i < |traded| ==> tradeOn(traded[i]) == Some(trades[i])
  {
    if days != [] {
      var front, last := days[..|days| - 1], days[|days| - 1];
      TradesStated(front, tradeOn);
      var has := (d: int) => tradeOn(d).Some?;
      assert days == front + [last] && [last][1..] == [];
      FilterAppend(has, front, [last]);
    }
  }

  lemma ReturnsStated(trades: seq<Trade>, total: real, drawdown: real, idle: int)
    ensures IsMean(E.Summarize(trades, total, drawdown, idle).averageReturn, SumBy(ReturnOf, trades), |trades|)
  {
    AverageStated(E.RateOf, ReturnOf, trades);
  }

  lemma HoldingsStated(trades: seq<Trade>, total: real, drawdown: real, idle: int)
    ensures var r := E.Summarize(trades, total, drawdown, idle);
            IsMean(r.averageHolding, SumBy(MinutesOf, trades), |trades|) && IsLongest(r.maxHolding, trades)
  {
    AverageStated(E.HoldingOf, MinutesOf, trades);
    LongestStated(trades);
  }

  lemma WinsStated(trades: seq<Trade>, total: real, drawdown: real, idle: int)
    ensures IsMean(E.Summarize(trades, total, drawdown, idle).winRate, CountBy(Won, trades) as real, |trades|)
  {
    AverageStated((t: Trade) => if t.returnRate > 0.0 then 1.0 else 0.0, OneIfWon, trades);
    OnesAreCounted(trades);
  }

  /** What a run reports are the counts, means and extremes of the trades of its days, in day order. */
  lemma ReportStated(days: seq<int>, tradeOn: int -> Option<Trade>, fraction: real, initial: real)
    ensures IsReport(E.Report(days, tradeOn, fraction, initial), days, tradeOn)
  {
    var r := E.Report(days, tradeOn, fraction, initial);
    var trades := E.TradesOn(days, tradeOn);
    TradesStated(days, tradeOn);
    ReturnsStated(trades, r.totalReturn, r.maxDrawdown, r.zeroTradeDays);
    HoldingsStated(trades, r.totalReturn, r.maxDrawdown, r.zeroTradeDays);
    WinsStated(trades, r.totalReturn, r.maxDrawdown, r.zeroTradeDays);
    ExitsStated(trades, StopLoss);
    ExitsStated(trades, TakeProfit);
    ExitsStated(trades, TrailingStop);
    ExitsStated(trades, EndOfDay);
  }

  predicate Earns(before: real, after: real, fraction: real, t: Trade) {
    after == before + before * fraction * t.returnRate
  }

  /** Each trade adds its return on the given share of the equity; the last equity is the total return. */
  ghost predicate IsCompounded(curve: seq<real>, r: E.Result, fraction: real, initial: real) {
    && |curve| == |r.trades| + 1 && curve[0] == initial
    && (forall k :: 0 <= k < |r.trades| ==>
          Earns(curve[k], curve[k + 1], fraction, r.trades[k]))
    && r.totalReturn == if initial == 0.0 then 0.0 else curve[|r.trades|] / initial - 1.0
  }

  lemma {:induction false} CurveStated(initial: real, fraction: real, trades: seq<Trade>, k: nat)
    requires k < |trades|
    ensures var curve := E.Curve(initial, fraction, trades);
            curve[0] == initial && Earns(curve[k], curve[k + 1], fraction, trades[k])
  {
    var front := trades[..|trades| - 1];
    if k < |front| {
      CurveStated(initial, fraction, front, k);
    } else if front != [] {
      CurveStated(initial, fraction, front, 0);
    }
  }

  /** The reported total return is that of the equity compounded trade by trade. */
  lemma ReturnStated(days: seq<int>, tradeOn: int -> Option<Trade>, fraction: real, initial: real)
    returns (curve: seq<real>)
    ensures IsCompounded(curve, E.Report(days, tradeOn, fraction, initial), fraction, initial)
  {
    var trades := E.TradesOn(days, tradeOn);
    curve := E.Curve(initial, fraction, trades);
    if trades != [] {
      CurveStated(initial, fraction, trades, 0);
    }
    forall k | 0 <= k < |trades| ensures Earns(curve[k], curve[k + 1], fraction, trades[k]) {
      CurveStated(initial, fraction, trades, k);
    }
  }
}
