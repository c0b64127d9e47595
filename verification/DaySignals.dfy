/** The one trade a day of the backtest may take: which ticker, which bar, in each of the modes. */
module DaySignals {
  import opened CandidateSelection
  import opened Common
  import EquityCurve
  import opened Grouping
  import opened Sorting
  import opened TradeSimulation

  datatype Window = Window(start: int, end: int)

  /** The bar at `time` triggered; the trade enters at the next bar, `entry`. */
  datatype Signal = Signal(time: int, ticker: string, entry: nat)

  datatype Mode = Fixed | Refresh | Hybrid

  datatype Setup = Setup(
    tickers: seq<string>, history: map<string, seq<Bar>>, filters: Filters, openingLimit: int,
    hybridLimit: int, rules: Rules)

  const WINDOW_SECONDS := 900

  // ---- the signal of a ticker -------------------------------------------------------

  predicate Triggers(bars: seq<Bar>, i: nat, breakout: real, w: Option<Window>)
    requires i < |bars|
  {
    (w.Some? ==> w.value.start <= bars[i].time < w.value.end) && bars[i].high >= breakout
  }

  /** The first bar from `i` on that triggers; the last bar of the day never does. */
  function FirstTrigger(bars: seq<Bar>, i: nat, breakout: real, w: Option<Window>): (r: Option<nat>)
    ensures r.Some? ==> i <= r.value < |bars| - 1 && Triggers(bars, r.value, breakout, w)
    ensures forall j :: i <= j < (if r.Some? then r.value else |bars| - 1) ==>
                          !Triggers(bars, j, breakout, w)
    decreases |bars| - i
  {
    if i + 1 >= |bars| then None
    else if Triggers(bars, i, breakout, w) then Some(i)
    else FirstTrigger(bars, i + 1, breakout, w)
  }

  /** Without a window the breakout price is formed before the opening filters are applied. */
  function SignalFrom(
    today: seq<Bar>, previous: seq<Bar>, ticker: string, w: Option<Window>, f: Filters)
    : Outcome<Option<Signal>>
  {
    if |today| < 2 || previous == [] then Gives(None)
    else
      var passes := PassesOpeningFilters(today, previous, f);
      match BreakoutPrice(today[0].open, Highest(previous), Lowest(previous), f.breakoutK)
      case Raises => if w.Some? && !passes then Gives(None) else Raises
      case Gives(breakout) =>
        var trigger := FirstTrigger(today, 0, breakout, w);
        if !passes || trigger.None? then Gives(None)
        else Gives(Some(Signal(today[trigger.value].time, ticker, trigger.value + 1)))
  }

  function SignalOf(s: Setup, ticker: string, day: int, w: Option<Window>): Outcome<Option<Signal>> {
    var bars := BarsOf(s.history, ticker);
    SignalFrom(BarsForDay(bars, day), PreviousDayBars(bars, day), ticker, w, s.filters)
  }

  /** The results of the tickers that have one, unless some ticker raises. */
  function Gather<T>(one: string -> Outcome<Option<T>>, tickers: seq<string>): Outcome<seq<T>> {
    if tickers == [] then Gives([])
    else
      match Gather(one, tickers[..|tickers| - 1])
      case Raises => Raises
      case Gives(front) =>
        match one(tickers[|tickers| - 1])
        case Raises => Raises
        case Gives(None) => Gives(front)
        case Gives(Some(x)) => Gives(front + [x])
  }

  predicate SignalLeq(a: Signal, b: Signal) {
    a.time < b.time || (a.time == b.time && TextLeq(a.ticker, b.ticker))
  }

  function Earliest(signals: seq<Signal>): Option<Signal> {
    var sorted := Sort(SignalLeq, signals);
    if sorted == [] then None else Some(sorted[0])
  }

  function SignalOn(s: Setup, day: int, w: Option<Window>): string -> Outcome<Option<Signal>> {
    ticker => SignalOf(s, ticker, day, w)
  }

  function FirstSignal(s: Setup, active: seq<string>, day: int, w: Option<Window>)
    : Outcome<Option<Signal>>
  {
    match Gather(SignalOn(s, day, w), active)
    case Raises => Raises
    case Gives(signals) => Gives(Earliest(signals))
  }

  // ---- the tickers a window considers --------------------------------------------------

  function TimeOf(b: Bar): int { b.time }

  predicate IntLeq(a: int, b: int) { a <= b }

  function AllTimes(s: Setup, tickers: seq<string>, day: int): seq<int> {
    if tickers == [] then []
    else
      AllTimes(s, tickers[..|tickers| - 1], day)
      + Map(TimeOf, BarsForDay(BarsOf(s.history, tickers[|tickers| - 1]), day))
  }

  /** The day's distinct bar times, ascending. */
  function DayTimes(s: Setup, day: int): seq<int> {
    Sort(IntLeq, Distinct(AllTimes(s, s.tickers, day)))
  }

  /** A window opens at every third time but the last. */
  function WindowsFrom(times: seq<int>, i: nat): seq<Window>
    decreases |times| - i
  {
    if i + 1 >= |times| then []
    else [Window(times[i], times[i] + WINDOW_SECONDS)] + WindowsFrom(times, i + 3)
  }

  function OpeningCandidate(s: Setup, ticker: string, day: int): Outcome<Option<Candidate>> {
    var bars := BarsOf(s.history, ticker);
    var today, previous := BarsForDay(bars, day), PreviousDayBars(bars, day);
    if |today| < 2 || previous == [] || !PassesOpeningFilters(today, previous, s.filters)
    then Gives(None)
    else Gives(Some(Candidate(Score(today, previous, today[0].time), ticker)))
  }

  function OpeningOn(s: Setup, day: int): string -> Outcome<Option<Candidate>> {
    ticker => OpeningCandidate(s, ticker, day)
  }

  function OpeningCandidates(s: Setup, day: int): seq<string> {
    match Gather(OpeningOn(s, day), s.tickers)
    case Raises => []
    case Gives(candidates) => Ranked(candidates, s.openingLimit)
  }

  function Merged(fixed: seq<string>, refreshed: seq<string>, limit: int): seq<string> {
    var merged := Distinct(fixed + refreshed);
    merged[..Min(Max(0, limit), |merged|)]
  }

  function Active(s: Setup, mode: Mode, day: int, start: int): Outcome<seq<string>> {
    match RefreshCandidates(s.tickers, s.history, day, start, s.filters)
    case Raises => Raises
    case Gives(refreshed) =>
      Gives(
        if mode == Hybrid then Merged(OpeningCandidates(s, day), refreshed, s.hybridLimit)
        else refreshed)
  }

  function SignalIn(s: Setup, mode: Mode, day: int, w: Window): Outcome<Option<Signal>> {
    match Active(s, mode, day, w.start)
    case Raises => Raises
    case Gives(active) => FirstSignal(s, active, day, Some(w))
  }

  function SignalInWindow(s: Setup, mode: Mode, day: int): Window -> Outcome<Option<Signal>> {
    w => SignalIn(s, mode, day, w)
  }

  /** The result of the first window that has one, unless a window before raises. */
  function FirstFound(one: Window -> Outcome<Option<Signal>>, windows: seq<Window>)
    : Outcome<Option<Signal>>
  {
    if windows == [] then Gives(None)
    else if one(windows[0]) == Gives(None) then FirstFound(one, windows[1..])
    else one(windows[0])
  }

  /** The signal of the first window that has one. */
  function Scan(s: Setup, mode: Mode, day: int, windows: seq<Window>): Outcome<Option<Signal>> {
    FirstFound(SignalInWindow(s, mode, day), windows)
  }

  function DaySignal(s: Setup, mode: Mode, day: int): Outcome<Option<Signal>> {
    if mode == Fixed then FirstSignal(s, s.tickers, day, None)
    else Scan(s, mode, day, WindowsFrom(DayTimes(s, day), 0))
  }

  method FirstSignalInWindows(s: Setup, mode: Mode, day: int) returns (r: Outcome<Option<Signal>>)
    requires mode != Fixed
    ensures r == DaySignal(s, mode, day)
  {
    var windows := WindowsFrom(DayTimes(s, day), 0);
    for i := 0 to |windows|
      invariant Scan(s, mode, day, windows) == Scan(s, mode, day, windows[i..])
    {
      var refreshed := RefreshCandidateTickersAt(
        s.tickers, s.history, day, windows[i].start, s.filters);
      if refreshed.Raises? {
        return Raises;
      }
      var active := refreshed.value;
      if mode == Hybrid {
        active := Merged(OpeningCandidates(s, day), refreshed.value, s.hybridLimit);
      }
      var signal := FirstSignal(s, active, day, Some(windows[i]));
      if signal.Raises? || signal.value.Some? {
        return signal;
      }
      assert SignalInWindow(s, mode, day)(windows[i]) == signal;
      assert windows[i..][1..] == windows[i + 1..];
    }
    r := Gives(None);
  }

  // ---- what the chosen signal is ---------------------------------------------------------

  lemma SignalOrderTotal()
    ensures Total(SignalLeq)
  {
    forall a, b ensures SignalLeq(a, b) || SignalLeq(b, a) { TextLeqTotal(a.ticker, b.ticker); }
    forall a, b, c | SignalLeq(a, b) && SignalLeq(b, c) ensures SignalLeq(a, c) {
      if a.time == b.time == c.time { TextLeqTransitive(a.ticker, b.ticker, c.ticker); }
    }
  }

  lemma {:induction false} GatherHolds<T(!new)>(
    one: string -> Outcome<Option<T>>, tickers: seq<string>, ticker: string, x: T)
    requires Gather(one, tickers).Gives?
    requires ticker in tickers && one(ticker) == Gives(Some(x))
    ensures x in Gather(one, tickers).value
  {
    var front, last := tickers[..|tickers| - 1], tickers[|tickers| - 1];
    if ticker in front {
      GatherHolds(one, front, ticker, x);
    } else {
      assert ticker == last;
    }
  }

  lemma {:induction false} GatherComesFrom<T(!new)>(
    one: string -> Outcome<Option<T>>, tickers: seq<string>, x: T) returns (ticker: string)
    requires Gather(one, tickers).Gives? && x in Gather(one, tickers).value
    ensures ticker in tickers && one(ticker) == Gives(Some(x))
  {
    var front, last := tickers[..|tickers| - 1], tickers[|tickers| - 1];
    if x in Gather(one, front).value {
      ticker := GatherComesFrom(one, front, x);
    } else {
      ticker := last;
    }
  }

  /** The signal passed the filters and enters on the bar after the first one that triggers. */
  ghost predicate EntersAfterTrigger(s: Setup, signal: Signal, day: int, w: Option<Window>) {
    var bars := BarsOf(s.history, signal.ticker);
    var today, previous := BarsForDay(bars, day), PreviousDayBars(bars, day);
    && 1 <= signal.entry < |today| && signal.time == today[signal.entry - 1].time
    && previous != [] && PassesOpeningFilters(today, previous, s.filters)
    && var breakout :=
         BreakoutPrice(today[0].open, Highest(previous), Lowest(previous), s.filters.breakoutK);
       breakout.Gives? && FirstTrigger(today, 0, breakout.value, w) == Some(signal.entry - 1)
  }

  lemma SignalEnters(s: Setup, ticker: string, day: int, w: Option<Window>, signal: Signal)
    requires SignalOf(s, ticker, day, w) == Gives(Some(signal))
    ensures signal.ticker == ticker && EntersAfterTrigger(s, signal, day, w)
  {
  }

  /** No active ticker has a signal before this one. */
  ghost predicate NoneEarlier(
    one: string -> Outcome<Option<Signal>>, active: seq<string>, signal: Signal)
  {
    forall t :: t in active && one(t).Gives? && one(t).value.Some? ==>
                  SignalLeq(signal, one(t).value.value)
  }

  lemma EarliestOfGather(one: string -> Outcome<Option<Signal>>, active: seq<string>)
    returns (ticker: string)
    requires Gather(one, active).Gives? && Gather(one, active).value != []
    ensures Earliest(Gather(one, active).value).Some?
    ensures ticker in active && one(ticker) == Gives(Earliest(Gather(one, active).value))
    ensures NoneEarlier(one, active, Earliest(Gather(one, active).value).value)
  {
    var signals := Gather(one, active).value;
    SignalOrderTotal();
    SortSorts(SignalLeq, signals);
    forall t | t in active && one(t).Gives? && one(t).value.Some?
      ensures one(t).value.value in Sort(SignalLeq, signals)
    {
      GatherHolds(one, active, t, one(t).value.value);
    }
    ticker := GatherComesFrom(one, active, Sort(SignalLeq, signals)[0]);
  }

  /** The signal chosen among active tickers is theirs, and no active ticker has an earlier one. */
  lemma FirstSignalIsEarliest(
    s: Setup, active: seq<string>, day: int, w: Option<Window>, signal: Signal)
    requires FirstSignal(s, active, day, w) == Gives(Some(signal))
    ensures signal.ticker in active && EntersAfterTrigger(s, signal, day, w)
    ensures NoneEarlier(SignalOn(s, day, w), active, signal)
  {
    var one := SignalOn(s, day, w);
    var ticker := EarliestOfGather(one, active);
    assert one(ticker) == SignalOf(s, ticker, day, w);
    SignalEnters(s, ticker, day, w, signal);
  }

  /** Nothing was found in the windows before `m`. */
  ghost predicate QuietBefore(s: Setup, mode: Mode, day: int, windows: seq<Window>, m: nat)
    requires m <= |windows|
  {
    forall j :: 0 <= j < m ==> SignalIn(s, mode, day, windows[j]) == Gives(None)
  }

  lemma {:induction false} FirstFoundStops(
    one: Window -> Outcome<Option<Signal>>, windows: seq<Window>, signal: Signal) returns (i: nat)
    requires FirstFound(one, windows) == Gives(Some(signal))
    ensures i < |windows| && one(windows[i]) == Gives(Some(signal))
    ensures forall j :: 0 <= j < i ==> one(windows[j]) == Gives(None)
  {
    i := 0;
    if one(windows[0]) == Gives(None) {
      var rest := FirstFoundStops(one, windows[1..], signal);
      i := rest + 1;
      assert windows[1..][rest] == windows[i];
      assert forall j :: 0 < j < i ==> windows[1..][j - 1] == windows[j];
    }
  }

  lemma {:induction false} FirstFoundAt(
    one: Window -> Outcome<Option<Signal>>, windows: seq<Window>, m: nat)
    requires m < |windows| && forall j :: 0 <= j < m ==> one(windows[j]) == Gives(None)
    requires one(windows[m]) != Gives(None)
    ensures FirstFound(one, windows) == one(windows[m])
  {
    if m > 0 {
      assert windows[1..][m - 1] == windows[m];
      FirstFoundAt(one, windows[1..], m - 1);
    }
  }

  /** A scan stops at the first window with a signal, among the tickers active there. */
  lemma ScanStops(s: Setup, mode: Mode, day: int, windows: seq<Window>, signal: Signal)
    returns (i: nat)
    requires Scan(s, mode, day, windows) == Gives(Some(signal))
    ensures i < |windows| && SignalIn(s, mode, day, windows[i]) == Gives(Some(signal))
    ensures QuietBefore(s, mode, day, windows, i)
  {
    var one := SignalInWindow(s, mode, day);
    i := FirstFoundStops(one, windows, signal);
    assert forall j :: 0 <= j <= i ==> one(windows[j]) == SignalIn(s, mode, day, windows[j]);
  }

  /** And the first window with a signal is where a scan stops. */
  lemma ScanFinds(s: Setup, mode: Mode, day: int, windows: seq<Window>, m: nat, signal: Signal)
    requires m < |windows| && SignalIn(s, mode, day, windows[m]) == Gives(Some(signal))
    requires QuietBefore(s, mode, day, windows, m)
    ensures Scan(s, mode, day, windows) == Gives(Some(signal))
  {
    var one := SignalInWindow(s, mode, day);
    assert forall j :: 0 <= j <= m ==> one(windows[j]) == SignalIn(s, mode, day, windows[j]);
    FirstFoundAt(one, windows, m);
  }

  /** In every mode the trade enters on the bar after its trigger, on the same day. */
  lemma DaySignalEnters(s: Setup, mode: Mode, day: int)
    requires DaySignal(s, mode, day).Gives? && DaySignal(s, mode, day).value.Some?
    ensures var signal := DaySignal(s, mode, day).value.value;
            var today := BarsForDay(BarsOf(s.history, signal.ticker), day);
            1 <= signal.entry < |today| && signal.time == today[signal.entry - 1].time
  {
    var signal := DaySignal(s, mode, day).value.value;
    if mode == Fixed {
      FirstSignalIsEarliest(s, s.tickers, day, None, signal);
    } else {
      var windows := WindowsFrom(DayTimes(s, day), 0);
      var i := ScanStops(s, mode, day, windows, signal);
      var active := Active(s, mode, day, windows[i].start).value;
      FirstSignalIsEarliest(s, active, day, Some(windows[i]), signal);
    }
  }

  // ---- a whole backtest ------------------------------------------------------------------

  function TodayOf(s: Setup, signal: Signal, day: int): seq<Bar> {
    BarsForDay(BarsOf(s.history, signal.ticker), day)
  }

  ghost predicate IsTradeOf(s: Setup, signal: Signal, day: int, trade: Trade) {
    var today := TodayOf(s, signal, day);
    && signal.entry < |today| && EntryCost(today, signal.entry, s.rules) != 0.0
    && IsSimulated(signal.ticker, today, signal.entry, s.rules, trade)
  }

  /** The trade of a day: None without a signal, else the simulated trade of the signal. */
  ghost predicate IsDayTrade(s: Setup, mode: Mode, day: int, trade: Option<Trade>) {
    && DaySignal(s, mode, day).Gives?
    && var signal := DaySignal(s, mode, day).value;
       if signal.None? then trade.None?
       else trade.Some? && IsTradeOf(s, signal.value, day, trade.value)
  }

  /** The search raised, or the return of its trade has a zero to divide by. */
  ghost predicate DayRaises(s: Setup, mode: Mode, day: int) {
    var signal := DaySignal(s, mode, day);
    signal.Raises?
    || (signal.value.Some? && signal.value.value.entry < |TodayOf(s, signal.value.value, day)|
        && EntryCost(TodayOf(s, signal.value.value, day), signal.value.value.entry, s.rules) == 0.0)
  }

  method DayTrade(s: Setup, mode: Mode, day: int) returns (r: Outcome<Option<Trade>>)
    ensures r.Raises? <==> DayRaises(s, mode, day)
    ensures r.Gives? ==> IsDayTrade(s, mode, day, r.value)
  {
    var signal;
    if mode == Fixed {
      signal := FirstSignal(s, s.tickers, day, None);
    } else {
      signal := FirstSignalInWindows(s, mode, day);
    }
    if signal.Raises? {
      return Raises;
    }
    if signal.value.None? {
      return Gives(None);
    }
    DaySignalEnters(s, mode, day);
    var chosen := signal.value.value;
    var today := TodayOf(s, chosen, day);
    if EntryCost(today, chosen.entry, s.rules) == 0.0 {
      return Raises;
    }
    var trade := SimulateTrade(chosen.ticker, today, chosen.entry, s.rules);
    r := Gives(Some(trade));
  }

  /** Every bar opens and closes at a positive price. */
  ghost predicate PositiveHistory(s: Setup) {
    forall t, i :: t in s.history && 0 <= i < |s.history[t]| ==>
                     s.history[t][i].open > 0.0 && s.history[t][i].close > 0.0
  }

  /** No bar closes below its low. */
  ghost predicate ClosesAboveLows(s: Setup) {
    forall t, i :: t in s.history && 0 <= i < |s.history[t]| ==>
                     s.history[t][i].low <= s.history[t][i].close
  }

  ghost predicate CanTrade(s: Setup) {
    SaneRules(s.rules) && s.rules.loss > -1.0 && PositiveHistory(s)
  }

  lemma TodayIsHistory(s: Setup, ticker: string, day: int, i: nat)
    requires i < |BarsForDay(BarsOf(s.history, ticker), day)|
    ensures var bar := BarsForDay(BarsOf(s.history, ticker), day)[i];
            && (PositiveHistory(s) ==> bar.open > 0.0 && bar.close > 0.0)
            && (ClosesAboveLows(s) ==> bar.low <= bar.close)
  {
    var bars := BarsOf(s.history, ticker);
    assert BarsForDay(bars, day)[i] in bars;
  }

  ghost predicate Bounded(s: Setup, trade: Trade)
    requires SaneRules(s.rules)
  {
    && trade.returnRate > -1.0
    && (ClosesAboveLows(s) ==> trade.returnRate >= RateAfterCosts(s.rules.loss, s.rules))
  }

  lemma DayTradeKeepsStake(s: Setup, signal: Signal, day: int, trade: Trade)
    requires CanTrade(s) && IsTradeOf(s, signal, day, trade)
    ensures trade.returnRate > -1.0
  {
    var today := TodayOf(s, signal, day);
    TodayIsHistory(s, signal.ticker, day, signal.entry);
    TodayIsHistory(s, signal.ticker, day, |today| - 1);
    TradeNeverLosesAll(signal.ticker, today, signal.entry, s.rules, trade);
  }

  lemma DayTradeAboveStop(s: Setup, signal: Signal, day: int, trade: Trade)
    requires CanTrade(s) && ClosesAboveLows(s) && IsTradeOf(s, signal, day, trade)
    ensures trade.returnRate >= RateAfterCosts(s.rules.loss, s.rules)
  {
    var today := TodayOf(s, signal, day);
    TodayIsHistory(s, signal.ticker, day, signal.entry);
    TodayIsHistory(s, signal.ticker, day, |today| - 1);
    TradeReturnIsBounded(signal.ticker, today, signal.entry, s.rules, trade);
  }

  /** A day's trade never loses the whole stake, nor, where no bar closes below its low, more than the stop. */
  lemma DayTradeIsBounded(s: Setup, mode: Mode, day: int, trade: Trade)
    requires CanTrade(s) && IsDayTrade(s, mode, day, Some(trade))
    ensures Bounded(s, trade)
  {
    var signal := DaySignal(s, mode, day).value.value;
    DayTradeKeepsStake(s, signal, day, trade);
    if ClosesAboveLows(s) {
      DayTradeAboveStop(s, signal, day, trade);
    }
  }

  lemma {:induction false} TradesAreBounded(
    s: Setup, mode: Mode, days: seq<int>, tradeOn: int -> Option<Trade>)
    requires CanTrade(s)
    requires forall day :: day in days ==> IsDayTrade(s, mode, day, tradeOn(day))
    ensures forall t :: t in EquityCurve.TradesOn(days, tradeOn) ==> Bounded(s, t)
  {
    if days != [] {
      var day := days[|days| - 1];
      TradesAreBounded(s, mode, days[..|days| - 1], tradeOn);
      assert day in days;
      if tradeOn(day).Some? {
        DayTradeIsBounded(s, mode, day, tradeOn(day).value);
      }
    }
  }

  /** Equity after `k` trades is at least the initial equity times the `k`-th power of `base`. */
  ghost predicate AboveWorst(curve: seq<real>, initial: real, base: real) {
    forall k :: 0 <= k < |curve| ==> curve[k] >= EquityCurve.Compounded(initial, base, k) > 0.0
  }

  lemma CurveKept(initial: real, fraction: real, trades: seq<Trade>, worst: real)
    requires initial > 0.0 && 0.0 <= fraction <= 1.0 && worst > -1.0
    requires forall t :: t in trades ==> t.returnRate >= worst
    ensures AboveWorst(
              EquityCurve.Curve(initial, fraction, trades), initial,
              EquityCurve.FactorOf(fraction, worst))
  {
    EquityCurve.WorstFactorPositive(fraction, worst);
    var curve, base := EquityCurve.Curve(initial, fraction, trades), EquityCurve.FactorOf(fraction, worst);
    forall k | 0 <= k < |curve| ensures curve[k] >= EquityCurve.Compounded(initial, base, k) > 0.0 {
      EquityCurve.CurveAboveWorst(initial, fraction, trades, worst, k);
    }
  }

  /** Equity stays positive, and the reported drawdown is the worst fall. */
  ghost predicate NeverRuined(
    days: seq<int>, tradeOn: int -> Option<Trade>, fraction: real, initial: real)
  {
    var curve := EquityCurve.Curve(initial, fraction, EquityCurve.TradesOn(days, tradeOn));
    var reported := EquityCurve.Report(days, tradeOn, fraction, initial).maxDrawdown;
    EquityCurve.AllPositive(curve) && EquityCurve.IsWorstFall(curve, reported)
  }

  /** Whatever the mode and the history, a run that trades each day as the mode says is not ruined. */
  lemma BacktestNeverRuins(
    s: Setup, mode: Mode, days: seq<int>, tradeOn: int -> Option<Trade>, fraction: real,
    initial: real)
    requires CanTrade(s) && initial > 0.0 && 0.0 <= fraction <= 1.0
    requires forall day :: day in days ==> IsDayTrade(s, mode, day, tradeOn(day))
    ensures NeverRuined(days, tradeOn, fraction, initial)
  {
    TradesAreBounded(s, mode, days, tradeOn);
    EquityCurve.DrawdownIsWorstFall(days, tradeOn, fraction, initial);
  }

  /** Where no bar closes below its low, the equity also stays above the compounded worst trade. */
  lemma BacktestAboveWorst(
    s: Setup, mode: Mode, days: seq<int>, tradeOn: int -> Option<Trade>, fraction: real,
    initial: real, worst: real)
    requires CanTrade(s) && ClosesAboveLows(s) && initial > 0.0 && 0.0 <= fraction <= 1.0
    requires forall day :: day in days ==> IsDayTrade(s, mode, day, tradeOn(day))
    requires worst == RateAfterCosts(s.rules.loss, s.rules)
    ensures AboveWorst(
              EquityCurve.Curve(initial, fraction, EquityCurve.TradesOn(days, tradeOn)), initial,
              EquityCurve.FactorOf(fraction, worst))
  {
    WorstRateAboveRuin(s.rules);
    TradesAreBounded(s, mode, days, tradeOn);
    CurveKept(initial, fraction, EquityCurve.TradesOn(days, tradeOn), worst);
  }
}
