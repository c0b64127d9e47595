/** What a day's signal depends on after its trigger: its entry bar, and two kinds of rivals. */
module DayForesight {
  import opened CandidateSelection
  import opened Common
  import opened DaySignals
  import opened Grouping
  import opened Sorting
  import opened TradeSimulation

  predicate HasLater(today: seq<Bar>, t: int) { |Visible(today, t)| < |today| }

  /** Two days of a ticker that agree on their first three bars and on all bars up to `t`. */
  ghost predicate SameDayUntil(today: seq<Bar>, today': seq<Bar>, t: int) {
    && InTimeOrder(today) && InTimeOrder(today')
    && FirstThree(today) == FirstThree(today') && Visible(today, t) == Visible(today', t)
  }

  // ---- one ticker ------------------------------------------------------------------------

  lemma SeenPrefix(today: seq<Bar>, t: int)
    requires InTimeOrder(today)
    ensures var n := |Visible(today, t)|;
            && n <= |today| && Visible(today, t) == today[..n]
            && (forall i :: 0 <= i < n ==> today[i].time <= t)
            && (forall i :: n <= i < |today| ==> today[i].time > t)
  {
    VisibleIsPrefix(today, t);
    var n := |Visible(today, t)|;
    forall i | 0 <= i < n ensures today[i].time <= t {
      assert today[..n][i] == today[i] && today[..n][i] in Visible(today, t);
    }
    NothingLater(today, t, n);
  }

  lemma NothingLater(today: seq<Bar>, t: int, n: nat)
    requires n <= |today| && Visible(today, t) == today[..n]
    ensures forall i :: n <= i < |today| ==> today[i].time > t
  {
    var later := today[n..];
    FilterAppend(Until(t), today[..n], later);
    assert today == today[..n] + later;
    forall b | b in today[..n] ensures Until(t)(b) {
      assert b in Visible(today, t);
    }
    FilterAll(Until(t), today[..n]);
    assert |Filter(Until(t), later)| == 0;
    forall i | n <= i < |today| ensures today[i].time > t {
      assert later[i - n] == today[i] && later[i - n] in later;
    }
  }

  lemma SameBars(today: seq<Bar>, today': seq<Bar>, t: int)
    requires SameDayUntil(today, today', t)
    ensures var n := |Visible(today, t)|;
            && n <= |today| && n <= |today'| && (forall i :: 0 <= i < n ==> today[i] == today'[i])
            && (forall i :: 0 <= i < |today| ==> (i < n <==> today[i].time <= t))
            && (forall i :: 0 <= i < |today'| ==> (i < n <==> today'[i].time <= t))
  {
    SeenPrefix(today, t);
    SeenPrefix(today', t);
    var n := |Visible(today, t)|;
    forall i | 0 <= i < n ensures today[i] == today'[i] {
      assert today[..n][i] == today'[..n][i];
    }
  }

  lemma TriggerIs(bars: seq<Bar>, breakout: real, w: Option<Window>, i: nat)
    requires i + 1 < |bars| && Triggers(bars, i, breakout, w)
    requires forall j :: 0 <= j < i ==> !Triggers(bars, j, breakout, w)
    ensures FirstTrigger(bars, 0, breakout, w) == Some(i)
  {
  }

  function Breakout(today: seq<Bar>, previous: seq<Bar>, f: Filters): Outcome<real>
    requires today != [] && previous != []
  {
    BreakoutPrice(today[0].open, Highest(previous), Lowest(previous), f.breakoutK)
  }

  /** The opening filters are passed and there is a breakout price: the first three bars decide. */
  ghost predicate Eligible(today: seq<Bar>, previous: seq<Bar>, f: Filters) {
    && |today| >= 2 && previous != [] && PassesOpeningFilters(today, previous, f)
    && Breakout(today, previous, f).Gives?
  }

  ghost predicate TriggersFirst(
    today: seq<Bar>, previous: seq<Bar>, w: Option<Window>, f: Filters, i: nat)
    requires Eligible(today, previous, f) && i < |today|
  {
    var breakout := Breakout(today, previous, f).value;
    Triggers(today, i, breakout, w) && forall j :: 0 <= j < i ==> !Triggers(today, j, breakout, w)
  }

  /** By `t` the day's last bar is its first trigger: `other` is the signal once one more bar comes. */
  ghost predicate PendingFrom(
    today: seq<Bar>, previous: seq<Bar>, ticker: string, w: Option<Window>, f: Filters, t: int,
    other: Signal)
  {
    && |today| >= 3 && !HasLater(today, t) && Eligible(today, previous, f)
    && TriggersFirst(today, previous, w, f, |today| - 1)
    && other == Signal(today[|today| - 1].time, ticker, |today|)
  }

  /** Some bar after `t` triggers, with another one to enter on. */
  ghost predicate TriggersLate(
    today: seq<Bar>, previous: seq<Bar>, w: Option<Window>, f: Filters, t: int)
  {
    && Eligible(today, previous, f)
    && exists i :: 0 <= i < |today| - 1 && today[i].time > t
                   && Triggers(today, i, Breakout(today, previous, f).value, w)
  }

  lemma SameEligible(today: seq<Bar>, today': seq<Bar>, previous: seq<Bar>, f: Filters)
    requires FirstThree(today) == FirstThree(today')
    ensures Eligible(today, previous, f) <==> Eligible(today', previous, f)
    ensures Eligible(today, previous, f) ==>
              Breakout(today, previous, f) == Breakout(today', previous, f)
  {
    if previous != [] {
      SameOpening(today, today', previous, f);
    }
  }

  /** The signal is the first trigger with a following bar. */
  lemma SignalTriggers(
    today: seq<Bar>, previous: seq<Bar>, ticker: string, w: Option<Window>, f: Filters, i: nat)
    requires i + 1 < |today| && Eligible(today, previous, f)
    ensures SignalFrom(today, previous, ticker, w, f) == Gives(Some(Signal(today[i].time, ticker, i + 1)))
            <==> TriggersFirst(today, previous, w, f, i)
  {
    var breakout := Breakout(today, previous, f).value;
    if TriggersFirst(today, previous, w, f, i) {
      TriggerIs(today, breakout, w, i);
    }
  }

  /** A trigger by `t` seen in one day alone was the last bar of the other. */
  lemma NewSignalWasPending(
    today: seq<Bar>, today': seq<Bar>, previous: seq<Bar>, ticker: string, w: Option<Window>,
    f: Filters, t: int, other: Signal)
    requires SameDayUntil(today, today', t)
    requires SignalFrom(today', previous, ticker, w, f) == Gives(Some(other)) && other.time <= t
    requires SignalFrom(today, previous, ticker, w, f) != Gives(Some(other))
    ensures PendingFrom(today, previous, ticker, w, f, t, other) && HasLater(today', t)
  {
    var i := other.entry - 1;
    SameEligible(today, today', previous, f);
    SignalTriggers(today', previous, ticker, w, f, i);
    SameBars(today, today', t);
    TriggersAlike(today, today', previous, w, f, i);
    assert |today| < 3 ==> FirstThree(today) == today;
    if i + 1 < |today| {
      SignalTriggers(today, previous, ticker, w, f, i);
      assert false;
    }
  }

  lemma TriggersAlike(
    today: seq<Bar>, today': seq<Bar>, previous: seq<Bar>, w: Option<Window>, f: Filters, i: nat)
    requires Eligible(today, previous, f) && Eligible(today', previous, f)
    requires Breakout(today, previous, f) == Breakout(today', previous, f)
    requires i < |today| && i < |today'| && forall j :: 0 <= j <= i ==> today[j] == today'[j]
    ensures TriggersFirst(today, previous, w, f, i) <==> TriggersFirst(today', previous, w, f, i)
  {
    var breakout := Breakout(today, previous, f).value;
    assert forall j :: 0 <= j <= i ==>
                         (Triggers(today, j, breakout, w) <==> Triggers(today', j, breakout, w));
  }

  /** A pending signal is one as soon as another bar comes. */
  lemma PendingBecomesSignal(
    today: seq<Bar>, today': seq<Bar>, previous: seq<Bar>, ticker: string, w: Option<Window>,
    f: Filters, t: int, other: Signal)
    requires SameDayUntil(today, today', t) && HasLater(today', t)
    requires PendingFrom(today, previous, ticker, w, f, t, other)
    ensures SignalFrom(today', previous, ticker, w, f) == Gives(Some(other)) && other.time <= t
  {
    SameEligible(today, today', previous, f);
    SameBars(today, today', t);
    TriggersAlike(today, today', previous, w, f, |today| - 1);
    SignalTriggers(today', previous, ticker, w, f, |today| - 1);
  }

  /** A day without a signal gets one if and only if a trigger was pending or comes late. */
  lemma QuietDayStaysIff(
    today: seq<Bar>, today': seq<Bar>, previous: seq<Bar>, ticker: string, w: Option<Window>,
    f: Filters, t: int)
    requires SameDayUntil(today, today', t)
    requires SignalFrom(today, previous, ticker, w, f) == Gives(None)
    ensures SignalFrom(today', previous, ticker, w, f) == Gives(None)
            <==> !TriggersLate(today', previous, w, f, t)
                 && !(HasLater(today', t)
                      && exists other :: PendingFrom(today, previous, ticker, w, f, t, other))
  {
    SameRaising(today, today', previous, ticker, w, f, t);
    var found := SignalFrom(today', previous, ticker, w, f);
    if found.value.Some? {
      if found.value.value.time <= t {
        NewSignalWasPending(today, today', previous, ticker, w, f, t, found.value.value);
      } else {
        assert TriggersLate(today', previous, w, f, t) by {
          assert today'[found.value.value.entry - 1].time > t;
        }
      }
    } else if other :| PendingFrom(today, previous, ticker, w, f, t, other) {
      if HasLater(today', t) {
        PendingBecomesSignal(today, today', previous, ticker, w, f, t, other);
        assert false;
      }
    }
  }

  lemma SameRaising(
    today: seq<Bar>, today': seq<Bar>, previous: seq<Bar>, ticker: string, w: Option<Window>,
    f: Filters, t: int)
    requires SameDayUntil(today, today', t)
    ensures SignalFrom(today, previous, ticker, w, f).Raises?
            <==> SignalFrom(today', previous, ticker, w, f).Raises?
  {
    if previous != [] {
      SameOpening(today, today', previous, f);
    }
  }

  // ---- all tickers ------------------------------------------------------------------------

  /** The histories agree, ticker by ticker, on earlier days, first three bars and bars up to `t`. */
  ghost predicate SameHistory(s: Setup, s': Setup, day: int, t: int) {
    && s' == s.(history := s'.history)
    && forall ticker :: ticker in s.tickers ==>
         var a, b := BarsOf(s.history, ticker), BarsOf(s'.history, ticker);
         && Filter(Before(day), a) == Filter(Before(day), b)
         && SameDayUntil(BarsForDay(a, day), BarsForDay(b, day), t)
  }

  predicate Continues(s: Setup, ticker: string, day: int, t: int) {
    HasLater(BarsForDay(BarsOf(s.history, ticker), day), t)
  }

  /** In `s` the ticker waits at `t` for one more bar to enter on. */
  ghost predicate Pending(
    s: Setup, ticker: string, day: int, w: Option<Window>, t: int, other: Signal)
  {
    var bars := BarsOf(s.history, ticker);
    PendingFrom(BarsForDay(bars, day), PreviousDayBars(bars, day), ticker, w, s.filters, t, other)
  }

  /** In `s` the ticker triggers after `t`. */
  ghost predicate Late(s: Setup, ticker: string, day: int, w: Option<Window>, t: int) {
    var bars := BarsOf(s.history, ticker);
    TriggersLate(BarsForDay(bars, day), PreviousDayBars(bars, day), w, s.filters, t)
  }

  /** The bar to enter on is there. */
  ghost predicate HasEntry(s: Setup, signal: Signal, day: int) {
    signal.entry < |TodayOf(s, signal, day)|
  }

  lemma TickerPending(
    s: Setup, s': Setup, ticker: string, day: int, w: Option<Window>, t: int, other: Signal)
    requires SameHistory(s, s', day, t) && ticker in s.tickers
    requires SignalOf(s', ticker, day, w) == Gives(Some(other)) && other.time <= t
    requires SignalOf(s, ticker, day, w) != Gives(Some(other))
    ensures Pending(s, ticker, day, w, t, other) && Continues(s', ticker, day, t)
  {
    var a, b := BarsOf(s.history, ticker), BarsOf(s'.history, ticker);
    PreviousBarsOfEarlier(a, b, day);
    NewSignalWasPending(
      BarsForDay(a, day), BarsForDay(b, day), PreviousDayBars(a, day), ticker, w, s.filters, t, other);
  }

  lemma PendingTickerSignals(
    s: Setup, s': Setup, ticker: string, day: int, w: Option<Window>, t: int, other: Signal)
    requires SameHistory(s, s', day, t) && ticker in s.tickers
    requires Pending(s, ticker, day, w, t, other) && Continues(s', ticker, day, t)
    ensures SignalOf(s', ticker, day, w) == Gives(Some(other)) && other.time <= t
  {
    var a, b := BarsOf(s.history, ticker), BarsOf(s'.history, ticker);
    PreviousBarsOfEarlier(a, b, day);
    PendingBecomesSignal(
      BarsForDay(a, day), BarsForDay(b, day), PreviousDayBars(a, day), ticker, w, s.filters, t, other);
  }

  /** A ticker's signal stays if and only if its entry bar does. */
  lemma TickerSignalStaysIff(
    s: Setup, s': Setup, ticker: string, day: int, w: Option<Window>, t: int, signal: Signal)
    requires SameHistory(s, s', day, t) && ticker in s.tickers
    requires SignalOf(s, ticker, day, w) == Gives(Some(signal)) && signal.time <= t
    ensures signal.ticker == ticker
    ensures SignalOf(s', ticker, day, w) == Gives(Some(signal)) <==> HasEntry(s', signal, day)
  {
    SignalEnters(s, ticker, day, w, signal);
    SameHistoryBack(s, s', day, t);
    if SignalOf(s', ticker, day, w) != Gives(Some(signal)) {
      TickerPending(s', s, ticker, day, w, t, signal);
    }
  }

  lemma QuietTickerStaysIff(
    s: Setup, s': Setup, ticker: string, day: int, w: Option<Window>, t: int)
    requires SameHistory(s, s', day, t) && ticker in s.tickers
    requires SignalOf(s, ticker, day, w) == Gives(None)
    ensures SignalOf(s', ticker, day, w) == Gives(None)
            <==> !Late(s', ticker, day, w, t)
                 && !(Continues(s', ticker, day, t)
                      && exists other :: Pending(s, ticker, day, w, t, other))
  {
    var a, b := BarsOf(s.history, ticker), BarsOf(s'.history, ticker);
    PreviousBarsOfEarlier(a, b, day);
    QuietDayStaysIff(
      BarsForDay(a, day), BarsForDay(b, day), PreviousDayBars(a, day), ticker, w, s.filters, t);
    assert forall other ::
             Pending(s, ticker, day, w, t, other)
             <==> PendingFrom(
                    BarsForDay(a, day), PreviousDayBars(a, day), ticker, w, s.filters, t, other);
  }

  lemma TickerRaises(s: Setup, s': Setup, ticker: string, day: int, w: Option<Window>, t: int)
    requires SameHistory(s, s', day, t) && ticker in s.tickers
    ensures SignalOf(s, ticker, day, w).Raises? <==> SignalOf(s', ticker, day, w).Raises?
  {
    var a, b := BarsOf(s.history, ticker), BarsOf(s'.history, ticker);
    PreviousBarsOfEarlier(a, b, day);
    SameRaising(
      BarsForDay(a, day), BarsForDay(b, day), PreviousDayBars(a, day), ticker, w, s.filters, t);
  }

  lemma {:induction false} GatherRaises<T(!new)>(
    one: string -> Outcome<Option<T>>, tickers: seq<string>)
    ensures Gather(one, tickers).Raises? <==> exists t :: t in tickers && one(t).Raises?
  {
    if tickers != [] {
      var front, last := tickers[..|tickers| - 1], tickers[|tickers| - 1];
      GatherRaises(one, front);
      assert forall t :: t in tickers <==> t in front || t == last;
    }
  }

  ghost predicate Known(s: Setup, active: seq<string>) { forall t :: t in active ==> t in s.tickers }

  lemma SearchRaises(
    s: Setup, s': Setup, active: seq<string>, day: int, w: Option<Window>, t: int)
    requires SameHistory(s, s', day, t) && Known(s, active)
    ensures FirstSignal(s, active, day, w).Raises? <==> FirstSignal(s', active, day, w).Raises?
  {
    GatherRaises(SignalOn(s, day, w), active);
    GatherRaises(SignalOn(s', day, w), active);
    forall ticker | ticker in active
      ensures SignalOn(s, day, w)(ticker).Raises? <==> SignalOn(s', day, w)(ticker).Raises?
    {
      TickerRaises(s, s', ticker, day, w, t);
    }
  }

  /** A ticker has a signal in the other history that comes before this one. */
  ghost predicate Overtakes(
    s': Setup, active: seq<string>, day: int, w: Option<Window>, signal: Signal)
  {
    exists ticker, other :: ticker in active && SignalOf(s', ticker, day, w) == Gives(Some(other))
                            && !SignalLeq(signal, other)
  }

  /** The chosen signal is its ticker's own. */
  lemma ChosenIsOwn(s: Setup, active: seq<string>, day: int, w: Option<Window>, signal: Signal)
    requires FirstSignal(s, active, day, w) == Gives(Some(signal))
    ensures signal.ticker in active && SignalOf(s, signal.ticker, day, w) == Gives(Some(signal))
    ensures forall ticker, other ::
              ticker in active && SignalOf(s, ticker, day, w) == Gives(Some(other)) ==>
                SignalLeq(signal, other)
  {
    var one := SignalOn(s, day, w);
    var ticker := EarliestOfGather(one, active);
    assert one(ticker) == SignalOf(s, ticker, day, w);
    SignalEnters(s, ticker, day, w, signal);
    forall t, other | t in active && SignalOf(s, t, day, w) == Gives(Some(other))
      ensures SignalLeq(signal, other)
    {
      assert one(t) == SignalOf(s, t, day, w);
    }
  }

  /** Of the signals of active tickers the chosen one is the only one that none overtakes. */
  lemma ChosenIff(s: Setup, active: seq<string>, day: int, w: Option<Window>, signal: Signal)
    requires FirstSignal(s, active, day, w).Gives? && signal.ticker in active
    requires SignalOf(s, signal.ticker, day, w) == Gives(Some(signal))
    ensures FirstSignal(s, active, day, w) == Gives(Some(signal))
            <==> !Overtakes(s, active, day, w, signal)
  {
    var one := SignalOn(s, day, w);
    assert one(signal.ticker) == SignalOf(s, signal.ticker, day, w);
    GatherHolds(one, active, signal.ticker, signal);
    OrderedHead(Gather(one, active).value);
    var first := FirstSignal(s, active, day, w).value.value;
    ChosenIsOwn(s, active, day, w, first);
    if !Overtakes(s, active, day, w, signal) {
      assert SignalLeq(signal, first) && SignalLeq(first, signal);
      TextLeqAntisymmetric(signal.ticker, first.ticker);
    }
  }

  /** An active ticker waits for a bar to enter on, with a signal before this one, and gets it. */
  ghost predicate Overtaken(
    s: Setup, s': Setup, active: seq<string>, day: int, w: Option<Window>, t: int, signal: Signal)
  {
    exists ticker, other :: ticker in active && Pending(s, ticker, day, w, t, other)
                            && !SignalLeq(signal, other) && Continues(s', ticker, day, t)
  }

  lemma SameHistoryBack(s: Setup, s': Setup, day: int, t: int)
    requires SameHistory(s, s', day, t)
    ensures SameHistory(s', s, day, t)
  {
  }

  lemma OvertakesIffOvertaken(
    s: Setup, s': Setup, active: seq<string>, day: int, w: Option<Window>, t: int, signal: Signal)
    requires SameHistory(s, s', day, t) && Known(s, active) && signal.time <= t
    requires FirstSignal(s, active, day, w) == Gives(Some(signal))
    ensures Overtakes(s', active, day, w, signal) <==> Overtaken(s, s', active, day, w, t, signal)
  {
    ChosenIsOwn(s, active, day, w, signal);
    if Overtakes(s', active, day, w, signal) {
      var ticker, other :| ticker in active && SignalOf(s', ticker, day, w) == Gives(Some(other))
                           && !SignalLeq(signal, other);
      TextLeqTotal(signal.ticker, other.ticker);
      TickerPending(s, s', ticker, day, w, t, other);
    }
    if Overtaken(s, s', active, day, w, t, signal) {
      var ticker, other :| ticker in active && Pending(s, ticker, day, w, t, other)
                           && !SignalLeq(signal, other) && Continues(s', ticker, day, t);
      PendingTickerSignals(s, s', ticker, day, w, t, other);
    }
  }

  /**
   * Among given tickers, in a history that agrees up to a time not before its trigger, the first
   * signal stays first if and only if its entry bar is there and no pending signal overtakes it.
   */
  lemma FirstSignalStaysIff(
    s: Setup, s': Setup, active: seq<string>, day: int, w: Option<Window>, t: int, signal: Signal)
    requires SameHistory(s, s', day, t) && Known(s, active)
    requires FirstSignal(s, active, day, w) == Gives(Some(signal)) && signal.time <= t
    ensures FirstSignal(s', active, day, w) == Gives(Some(signal))
            <==> HasEntry(s', signal, day) && !Overtaken(s, s', active, day, w, t, signal)
  {
    SearchRaises(s, s', active, day, w, t);
    ChosenIsOwn(s, active, day, w, signal);
    TickerSignalStaysIff(s, s', signal.ticker, day, w, t, signal);
    OvertakesIffOvertaken(s, s', active, day, w, t, signal);
    if HasEntry(s', signal, day) {
      ChosenIff(s', active, day, w, signal);
    } else if FirstSignal(s', active, day, w) == Gives(Some(signal)) {
      ChosenIsOwn(s', active, day, w, signal);
      assert false;
    }
  }

  /**
   * In the fixed mode the day's signal stays if and only if its entry bar is there and no ticker that
   * had triggered on its last bar, before this signal, gets a later bar.
   */
  lemma FixedSignalIgnoresTheFutureIff(s: Setup, s': Setup, day: int, t: int, signal: Signal)
    requires DaySignal(s, Fixed, day) == Gives(Some(signal)) && signal.time <= t
    requires SameHistory(s, s', day, t)
    ensures DaySignal(s', Fixed, day) == Gives(Some(signal))
            <==> HasEntry(s', signal, day) && !Overtaken(s, s', s.tickers, day, None, t, signal)
  {
    FirstSignalStaysIff(s, s', s.tickers, day, None, t, signal);
  }

  // ---- windows ------------------------------------------------------------------------------

  /** A search finds nothing if and only if no active ticker has a signal. */
  lemma FirstSignalNoneIff(s: Setup, active: seq<string>, day: int, w: Option<Window>)
    ensures FirstSignal(s, active, day, w) == Gives(None)
            <==> forall ticker :: ticker in active ==> SignalOf(s, ticker, day, w) == Gives(None)
  {
    var one := SignalOn(s, day, w);
    GatherRaises(one, active);
    if FirstSignal(s, active, day, w) == Gives(None) {
      OrderedHead(Gather(one, active).value);
      forall ticker | ticker in active ensures SignalOf(s, ticker, day, w) == Gives(None) {
        assert one(ticker) == SignalOf(s, ticker, day, w);
        if one(ticker).value.Some? {
          GatherHolds(one, active, ticker, one(ticker).value.value);
          assert false;
        }
      }
    } else if FirstSignal(s, active, day, w).Gives? {
      ChosenIsOwn(s, active, day, w, FirstSignal(s, active, day, w).value.value);
    } else {
      var ticker :| ticker in active && one(ticker).Raises?;
      assert SignalOf(s, ticker, day, w).Raises?;
    }
  }

  lemma OrderedHead(signals: seq<Signal>)
    ensures Earliest(signals).None? <==> signals == []
  {
    SignalOrderTotal();
    SortSorts(SignalLeq, signals);
  }

  lemma {:induction false} WindowsAt(times: seq<int>, i: nat, k: nat)
    ensures k < |WindowsFrom(times, i)| <==> i + 3 * k + 1 < |times|
    ensures k < |WindowsFrom(times, i)| ==>
              WindowsFrom(times, i)[k] == Window(times[i + 3 * k], times[i + 3 * k] + WINDOW_SECONDS)
    decreases k
  {
    if i + 1 < |times| {
      var first := Window(times[i], times[i] + WINDOW_SECONDS);
      assert WindowsFrom(times, i) == [first] + WindowsFrom(times, i + 3);
      if k > 0 {
        WindowsAt(times, i + 3, k - 1);
      }
    }
  }

  lemma {:induction false} TimesOfDay(s: Setup, tickers: seq<string>, day: int, x: int)
    ensures x in AllTimes(s, tickers, day)
            <==> exists ticker, b :: ticker in tickers && b in BarsForDay(BarsOf(s.history, ticker), day)
                                     && b.time == x
  {
    if tickers != [] {
      var front, last := tickers[..|tickers| - 1], tickers[|tickers| - 1];
      TimesOfDay(s, front, day, x);
      var bars := BarsForDay(BarsOf(s.history, last), day);
      assert forall t :: t in tickers <==> t in front || t == last;
      if x in Map(TimeOf, bars) {
        var i :| 0 <= i < |bars| && Map(TimeOf, bars)[i] == x;
        assert bars[i] in bars;
      }
      if b :| b in bars && b.time == x {
        var i :| 0 <= i < |bars| && bars[i] == b;
        assert Map(TimeOf, bars)[i] == x;
      }
    }
  }

  ghost predicate Ascending(u: seq<int>) { forall i, j :: 0 <= i < j < |u| ==> u[i] < u[j] }

  ghost predicate SameUpTo(u: seq<int>, v: seq<int>, t: int) {
    forall x :: x <= t ==> (x in u <==> x in v)
  }

  lemma DayTimesAscend(s: Setup, day: int)
    ensures Ascending(DayTimes(s, day))
    ensures forall x :: x in DayTimes(s, day) <==> x in AllTimes(s, s.tickers, day)
  {
    var all := AllTimes(s, s.tickers, day);
    DistinctFacts(all);
    SortSorts(IntLeq, Distinct(all));
    PermutedNoDuplicates(Distinct(all), DayTimes(s, day));
  }

  lemma {:induction false} AscendingAgree(u: seq<int>, v: seq<int>, t: int, i: nat)
    requires Ascending(u) && Ascending(v) && SameUpTo(u, v, t) && i < |u| && u[i] <= t
    ensures i < |v| && v[i] == u[i]
  {
    forall j | 0 <= j < i ensures j < |v| && v[j] == u[j] {
      AscendingAgree(u, v, t, j);
    }
    assert u[i] in v;
    var m :| 0 <= m < |v| && v[m] == u[i];
    assert forall j :: 0 <= j < i ==> v[j] < v[m];
    assert m > i ==> v[i] in u;
  }

  lemma SameTimesUntil(s: Setup, s': Setup, day: int, t: int, x: int)
    requires SameHistory(s, s', day, t) && x <= t && x in DayTimes(s, day)
    ensures x in DayTimes(s', day)
  {
    DayTimesAscend(s, day);
    DayTimesAscend(s', day);
    TimesOfDay(s, s.tickers, day, x);
    TimesOfDay(s', s.tickers, day, x);
    var ticker, b :| ticker in s.tickers && b in BarsForDay(BarsOf(s.history, ticker), day) && b.time == x;
    assert b in Visible(BarsForDay(BarsOf(s.history, ticker), day), t);
    assert b in BarsForDay(BarsOf(s'.history, ticker), day);
  }

  lemma SameTimes(s: Setup, s': Setup, day: int, t: int)
    requires SameHistory(s, s', day, t)
    ensures SameUpTo(DayTimes(s, day), DayTimes(s', day), t)
  {
    SameHistoryBack(s, s', day, t);
    forall x | x <= t ensures x in DayTimes(s, day) <==> x in DayTimes(s', day) {
      if x in DayTimes(s, day) { SameTimesUntil(s, s', day, t, x); }
      if x in DayTimes(s', day) { SameTimesUntil(s', s, day, t, x); }
    }
  }

  /** Windows of times that agree up to `t` are the same as far as they open by `t` and exist. */
  lemma SameWindow(u: seq<int>, v: seq<int>, t: int, j: nat)
    requires Ascending(u) && Ascending(v) && SameUpTo(u, v, t)
    requires j < |WindowsFrom(u, 0)| && WindowsFrom(u, 0)[j].start <= t && j < |WindowsFrom(v, 0)|
    ensures WindowsFrom(v, 0)[j] == WindowsFrom(u, 0)[j]
  {
    WindowsAt(u, 0, j);
    WindowsAt(v, 0, j);
    AscendingAgree(u, v, t, 3 * j);
  }

  lemma SameWindows(u: seq<int>, v: seq<int>, t: int, m: nat)
    requires Ascending(u) && Ascending(v) && SameUpTo(u, v, t)
    requires m < |WindowsFrom(u, 0)| && WindowsFrom(u, 0)[m].start <= t && m < |WindowsFrom(v, 0)|
    ensures forall j :: 0 <= j <= m ==> WindowsFrom(v, 0)[j] == WindowsFrom(u, 0)[j]
                                        && WindowsFrom(u, 0)[j].start <= t
  {
    forall j | 0 <= j <= m
      ensures WindowsFrom(v, 0)[j] == WindowsFrom(u, 0)[j] && WindowsFrom(u, 0)[j].start <= t
    {
      WindowsAscend(u, j, m);
      SameWindow(u, v, t, j);
    }
  }

  /** A window opens if the times go on after its start. */
  lemma WindowOpens(u: seq<int>, v: seq<int>, t: int, j: nat, later: int)
    requires Ascending(u) && Ascending(v) && SameUpTo(u, v, t)
    requires j < |WindowsFrom(u, 0)| && WindowsFrom(u, 0)[j].start <= t
    requires WindowsFrom(u, 0)[j].start < later && later in v
    ensures j < |WindowsFrom(v, 0)|
  {
    WindowsAt(u, 0, j);
    WindowsAt(v, 0, j);
    AscendingAgree(u, v, t, 3 * j);
    var n :| 0 <= n < |v| && v[n] == later;
    assert n > 3 * j;
  }

  lemma WindowsAscend(u: seq<int>, j: nat, m: nat)
    requires Ascending(u) && j <= m < |WindowsFrom(u, 0)|
    ensures WindowsFrom(u, 0)[j].start <= WindowsFrom(u, 0)[m].start
  {
    WindowsAt(u, 0, j);
    WindowsAt(u, 0, m);
  }

  // ---- active tickers ------------------------------------------------------------------------

  lemma {:induction false} VisibleTwice(bars: seq<Bar>, early: int, late: int)
    requires early <= late
    ensures Visible(Visible(bars, late), early) == Visible(bars, early)
  {
    if bars != [] {
      VisibleTwice(bars[1..], early, late);
      var rest := Visible(bars[1..], late);
      assert bars[0].time <= late ==> Visible(bars, late)[1..] == rest;
    }
  }

  lemma {:induction false} GatherAgree<T(!new)>(
    one: string -> Outcome<Option<T>>, other: string -> Outcome<Option<T>>, tickers: seq<string>)
    requires forall t :: t in tickers ==> one(t) == other(t)
    ensures Gather(one, tickers) == Gather(other, tickers)
  {
    if tickers != [] {
      GatherAgree(one, other, tickers[..|tickers| - 1]);
      assert tickers[|tickers| - 1] in tickers;
    }
  }

  /** The bars at each ticker's opening time are the same: the opening scores look at no others. */
  ghost predicate SameOpenings(s: Setup, s': Setup, day: int) {
    forall ticker :: ticker in s.tickers ==>
                       SameAtOpening(
                         BarsForDay(BarsOf(s.history, ticker), day),
                         BarsForDay(BarsOf(s'.history, ticker), day))
  }

  ghost predicate SameAtOpening(today: seq<Bar>, today': seq<Bar>) {
    today != [] && today' != [] ==>
      Visible(today, today[0].time) == Visible(today', today'[0].time)
  }

  /** The histories agree as far as a mode can tell; the hybrid mode scores the opening bars too. */
  ghost predicate SameFor(s: Setup, s': Setup, mode: Mode, day: int, t: int) {
    SameHistory(s, s', day, t) && (mode == Hybrid ==> SameOpenings(s, s', day))
  }

  lemma SameOpeningCandidate(s: Setup, s': Setup, ticker: string, day: int, t: int)
    requires SameHistory(s, s', day, t) && SameOpenings(s, s', day) && ticker in s.tickers
    ensures OpeningCandidate(s, ticker, day) == OpeningCandidate(s', ticker, day)
  {
    var a, b := BarsOf(s.history, ticker), BarsOf(s'.history, ticker);
    var today, today', previous := BarsForDay(a, day), BarsForDay(b, day), PreviousDayBars(a, day);
    PreviousBarsOfEarlier(a, b, day);
    if previous != [] {
      SameOpening(today, today', previous, s.filters);
      if |today| >= 2 {
        SameScore(today, today', previous, today[0].time);
      }
    }
  }

  lemma SameActive(s: Setup, s': Setup, mode: Mode, day: int, start: int, t: int)
    requires SameFor(s, s', mode, day, t) && start <= t
    ensures Active(s, mode, day, start) == Active(s', mode, day, start)
  {
    forall ticker | ticker in s.tickers
      ensures SameView(BarsOf(s.history, ticker), BarsOf(s'.history, ticker), day, start)
    {
      VisibleTwice(BarsForDay(BarsOf(s.history, ticker), day), start, t);
      VisibleTwice(BarsForDay(BarsOf(s'.history, ticker), day), start, t);
    }
    CandidatesIgnoreTheFuture(s.tickers, s.history, s'.history, day, start, s.filters);
    if mode == Hybrid {
      forall ticker | ticker in s.tickers ensures OpeningOn(s, day)(ticker) == OpeningOn(s', day)(ticker)
      {
        SameOpeningCandidate(s, s', ticker, day, t);
      }
      GatherAgree(OpeningOn(s, day), OpeningOn(s', day), s.tickers);
    }
  }

  ghost predicate Named(candidates: seq<Candidate>, tickers: seq<string>) {
    forall c :: c in candidates ==> c.ticker in tickers
  }

  lemma {:induction false} CollectedNamed(
    tickers: seq<string>, history: map<string, seq<Bar>>, day: int, checkpoint: int, f: Filters)
    requires Collected(tickers, history, day, checkpoint, f).Gives?
    ensures Named(Collected(tickers, history, day, checkpoint, f).value, tickers)
  {
    if tickers != [] {
      CollectedNamed(tickers[..|tickers| - 1], history, day, checkpoint, f);
      assert forall t :: t in tickers[..|tickers| - 1] ==> t in tickers;
    }
  }

  lemma OpeningNamed(s: Setup, tickers: seq<string>, day: int)
    requires Gather(OpeningOn(s, day), tickers).Gives?
    ensures Named(Gather(OpeningOn(s, day), tickers).value, tickers)
  {
    forall c | c in Gather(OpeningOn(s, day), tickers).value ensures c.ticker in tickers {
      var ticker := GatherComesFrom(OpeningOn(s, day), tickers, c);
      assert OpeningOn(s, day)(ticker) == OpeningCandidate(s, ticker, day);
    }
  }

  lemma RankedNamed(candidates: seq<Candidate>, limit: int, tickers: seq<string>)
    requires Named(candidates, tickers)
    ensures forall t :: t in Ranked(candidates, limit) ==> t in tickers
  {
    RankedTakesTheBest(candidates, limit);
    PermutationMembers(Sort(CandidateLeq, candidates), candidates);
    forall t | t in Ranked(candidates, limit) ensures t in tickers {
      var i :| 0 <= i < |Ranked(candidates, limit)| && Ranked(candidates, limit)[i] == t;
      assert Sort(CandidateLeq, candidates)[i] in candidates;
    }
  }

  lemma ActiveKnown(s: Setup, mode: Mode, day: int, start: int)
    requires Active(s, mode, day, start).Gives?
    ensures Known(s, Active(s, mode, day, start).value)
  {
    CollectedNamed(s.tickers, s.history, day, start, s.filters);
    var refreshed := Collected(s.tickers, s.history, day, start, s.filters).value;
    RankedNamed(refreshed, s.filters.refreshLimit, s.tickers);
    if Gather(OpeningOn(s, day), s.tickers).Gives? {
      OpeningNamed(s, s.tickers, day);
      RankedNamed(Gather(OpeningOn(s, day), s.tickers).value, s.openingLimit, s.tickers);
    }
    MergedKnown(
      OpeningCandidates(s, day), Ranked(refreshed, s.filters.refreshLimit), s.hybridLimit, s.tickers);
  }

  lemma MergedKnown(fixed: seq<string>, refreshed: seq<string>, limit: int, tickers: seq<string>)
    requires forall t :: t in fixed || t in refreshed ==> t in tickers
    ensures forall t :: t in Merged(fixed, refreshed, limit) ==> t in tickers
  {
    DistinctFacts(fixed + refreshed);
    var all := Distinct(fixed + refreshed);
    forall t | t in Merged(fixed, refreshed, limit) ensures t in tickers {
      assert t in all;
    }
  }

  // ---- the day -------------------------------------------------------------------------------

  function DayWindows(s: Setup, day: int): seq<Window> { WindowsFrom(DayTimes(s, day), 0) }

  /** In a window that found nothing, an active ticker triggers late, or was waiting and trades on. */
  ghost predicate Disturbed(s: Setup, s': Setup, mode: Mode, day: int, w: Window, t: int)
    requires Active(s, mode, day, w.start).Gives?
  {
    exists ticker :: ticker in Active(s, mode, day, w.start).value
                     && (Late(s', ticker, day, Some(w), t)
                         || (Continues(s', ticker, day, t)
                             && exists other :: Pending(s, ticker, day, Some(w), t, other)))
  }

  lemma QuietWindowStaysIff(s: Setup, s': Setup, mode: Mode, day: int, w: Window, t: int)
    requires SameFor(s, s', mode, day, t) && w.start <= t
    requires SignalIn(s, mode, day, w) == Gives(None)
    ensures SignalIn(s', mode, day, w).Gives?
    ensures SignalIn(s', mode, day, w) == Gives(None) <==> !Disturbed(s, s', mode, day, w, t)
  {
    var active := Active(s, mode, day, w.start).value;
    SameActive(s, s', mode, day, w.start, t);
    ActiveKnown(s, mode, day, w.start);
    SearchRaises(s, s', active, day, Some(w), t);
    FirstSignalNoneIff(s, active, day, Some(w));
    FirstSignalNoneIff(s', active, day, Some(w));
    forall ticker | ticker in active
      ensures SignalOf(s', ticker, day, Some(w)) == Gives(None)
              <==> !Late(s', ticker, day, Some(w), t)
                   && !(Continues(s', ticker, day, t)
                        && exists other :: Pending(s, ticker, day, Some(w), t, other))
    {
      QuietTickerStaysIff(s, s', ticker, day, Some(w), t);
    }
  }

  /** A chosen signal triggers inside its window, for a ticker active there. */
  lemma ChosenIsInWindow(s: Setup, mode: Mode, day: int, w: Window, signal: Signal)
    requires SignalIn(s, mode, day, w) == Gives(Some(signal))
    ensures w.start <= signal.time < w.end && signal.ticker in s.tickers
    ensures signal.ticker in Active(s, mode, day, w.start).value
    ensures SignalOf(s, signal.ticker, day, Some(w)) == Gives(Some(signal))
    ensures HasEntry(s, signal, day) && 1 <= signal.entry
    ensures TodayOf(s, signal, day)[signal.entry - 1].time == signal.time
  {
    ActiveKnown(s, mode, day, w.start);
    var active := Active(s, mode, day, w.start).value;
    FirstSignalIsEarliest(s, active, day, Some(w), signal);
    ChosenIsOwn(s, active, day, Some(w), signal);
  }

  lemma BarTimeIsListed(s: Setup, ticker: string, day: int, i: nat)
    requires ticker in s.tickers && i < |BarsForDay(BarsOf(s.history, ticker), day)|
    ensures BarsForDay(BarsOf(s.history, ticker), day)[i].time in DayTimes(s, day)
  {
    var bar := BarsForDay(BarsOf(s.history, ticker), day)[i];
    assert bar in BarsForDay(BarsOf(s.history, ticker), day);
    DayTimesAscend(s, day);
    TimesOfDay(s, s.tickers, day, bar.time);
  }

  /** The signal is that of window `m`, and no window before found one. */
  ghost predicate FoundIn(s: Setup, mode: Mode, day: int, m: nat, signal: Signal) {
    && m < |DayWindows(s, day)| && QuietBefore(s, mode, day, DayWindows(s, day), m)
    && SignalIn(s, mode, day, DayWindows(s, day)[m]) == Gives(Some(signal))
  }

  lemma FoundInOne(s: Setup, mode: Mode, day: int, signal: Signal) returns (m: nat)
    requires mode != Fixed && DaySignal(s, mode, day) == Gives(Some(signal))
    ensures FoundIn(s, mode, day, m, signal)
  {
    m := ScanStops(s, mode, day, DayWindows(s, day), signal);
  }

  /** The windows up to the one with the signal are the same, if that one opens. */
  lemma SameWindowsUpTo(s: Setup, s': Setup, day: int, t: int, m: nat)
    requires SameHistory(s, s', day, t) && m < |DayWindows(s, day)|
    requires DayWindows(s, day)[m].start <= t && m < |DayWindows(s', day)|
    ensures forall j :: 0 <= j <= m ==> DayWindows(s', day)[j] == DayWindows(s, day)[j]
                                        && DayWindows(s, day)[j].start <= t
  {
    DayTimesAscend(s, day);
    DayTimesAscend(s', day);
    SameTimes(s, s', day, t);
    SameWindows(DayTimes(s, day), DayTimes(s', day), t, m);
  }

  /** The window with the signal keeps it if and only if no pending signal overtakes it. */
  lemma FindingWindowStaysIff(
    s: Setup, s': Setup, mode: Mode, day: int, w: Window, t: int, signal: Signal)
    requires SameFor(s, s', mode, day, t) && signal.time <= t && HasEntry(s', signal, day)
    requires SignalIn(s, mode, day, w) == Gives(Some(signal))
    ensures SignalIn(s', mode, day, w).Gives? && SignalIn(s', mode, day, w).value.Some?
    ensures SignalIn(s', mode, day, w) == Gives(Some(signal))
            <==> !Overtaken(s, s', Active(s, mode, day, w.start).value, day, Some(w), t, signal)
  {
    ChosenIsInWindow(s, mode, day, w, signal);
    SameActive(s, s', mode, day, w.start, t);
    ActiveKnown(s, mode, day, w.start);
    var active := Active(s, mode, day, w.start).value;
    FirstSignalStaysIff(s, s', active, day, Some(w), t, signal);
    SearchRaises(s, s', active, day, Some(w), t);
    TickerSignalStaysIff(s, s', signal.ticker, day, Some(w), t, signal);
    FirstSignalNoneIff(s', active, day, Some(w));
  }

  /** Windows `0` to `m - 1` stay quiet, and window `m` keeps the signal. */
  ghost predicate Undisturbed(
    s: Setup, s': Setup, mode: Mode, day: int, m: nat, t: int, signal: Signal)
    requires FoundIn(s, mode, day, m, signal)
  {
    var windows := DayWindows(s, day);
    && (forall j :: 0 <= j < m ==> !Disturbed(s, s', mode, day, windows[j], t))
    && !Overtaken(
         s, s', Active(s, mode, day, windows[m].start).value, day, Some(windows[m]), t, signal)
  }

  /** With its entry bar there, a signal that triggered by `t` was not new at `t`. */
  lemma SignalWasThere(
    s: Setup, s': Setup, mode: Mode, day: int, w: Window, v: Window, t: int, signal: Signal)
    requires SameFor(s, s', mode, day, t) && signal.time <= t && w.start <= t
    requires SignalIn(s, mode, day, v) == Gives(Some(signal))
    requires SignalIn(s', mode, day, w) == Gives(Some(signal))
    ensures SignalIn(s, mode, day, w) != Gives(None)
  {
    ChosenIsInWindow(s, mode, day, v, signal);
    ChosenIsInWindow(s', mode, day, w, signal);
    SameActive(s, s', mode, day, w.start, t);
    SameHistoryBack(s, s', day, t);
    TickerSignalStaysIff(s', s, signal.ticker, day, Some(w), t, signal);
    if SignalIn(s, mode, day, w) == Gives(None) {
      FirstSignalNoneIff(s, Active(s, mode, day, w.start).value, day, Some(w));
      assert false;
    }
  }

  lemma UndisturbedKeepsSignal(
    s: Setup, s': Setup, mode: Mode, day: int, t: int, m: nat, signal: Signal)
    requires mode != Fixed && SameFor(s, s', mode, day, t) && signal.time <= t
    requires FoundIn(s, mode, day, m, signal) && HasEntry(s', signal, day)
    requires m < |DayWindows(s', day)| && Undisturbed(s, s', mode, day, m, t, signal)
    ensures DaySignal(s', mode, day) == Gives(Some(signal))
  {
    var windows, windows' := DayWindows(s, day), DayWindows(s', day);
    ChosenIsInWindow(s, mode, day, windows[m], signal);
    SameWindowsUpTo(s, s', day, t, m);
    forall j | 0 <= j < m ensures SignalIn(s', mode, day, windows'[j]) == Gives(None) {
      QuietWindowStaysIff(s, s', mode, day, windows[j], t);
    }
    FindingWindowStaysIff(s, s', mode, day, windows[m], t, signal);
    ScanFinds(s', mode, day, windows', m, signal);
  }

  /** A kept signal is found in the same window. */
  lemma KeptInSameWindow(
    s: Setup, s': Setup, mode: Mode, day: int, t: int, m: nat, k: nat, signal: Signal)
    requires SameFor(s, s', mode, day, t) && signal.time <= t
    requires FoundIn(s, mode, day, m, signal) && FoundIn(s', mode, day, k, signal)
    ensures HasEntry(s', signal, day) && k == m
  {
    var windows, windows' := DayWindows(s, day), DayWindows(s', day);
    ChosenIsInWindow(s, mode, day, windows[m], signal);
    ChosenIsInWindow(s', mode, day, windows'[k], signal);
    if k < m {
      SameHistoryBack(s, s', day, t);
      SameWindowsUpTo(s', s, day, t, k);
      SignalWasThere(s, s', mode, day, windows[k], windows[m], t, signal);
      assert false;
    } else if m < k {
      SameWindowsUpTo(s, s', day, t, m);
      FindingWindowStaysIff(s, s', mode, day, windows[m], t, signal);
      assert false;
    }
  }

  lemma KeptSignalWasUndisturbed(
    s: Setup, s': Setup, mode: Mode, day: int, t: int, m: nat, signal: Signal)
    requires mode != Fixed && SameFor(s, s', mode, day, t) && signal.time <= t
    requires FoundIn(s, mode, day, m, signal) && DaySignal(s', mode, day) == Gives(Some(signal))
    ensures HasEntry(s', signal, day) && m < |DayWindows(s', day)|
    ensures Undisturbed(s, s', mode, day, m, t, signal)
  {
    var windows := DayWindows(s, day);
    var k := FoundInOne(s', mode, day, signal);
    KeptInSameWindow(s, s', mode, day, t, m, k, signal);
    ChosenIsInWindow(s, mode, day, windows[m], signal);
    SameWindowsUpTo(s, s', day, t, m);
    FindingWindowStaysIff(s, s', mode, day, windows[m], t, signal);
    forall j | 0 <= j < m ensures !Disturbed(s, s', mode, day, windows[j], t) {
      QuietWindowStaysIff(s, s', mode, day, windows[j], t);
    }
  }

  /**
   * In the refresh and hybrid modes, with the signal found in window `m`, it stays the day's if and
   * only if its entry bar is there and window `m` opens; in no window before `m` an active ticker
   * triggers after `t` or gets the bar it waited for; and in `m` no active ticker gets such a bar
   * with an earlier signal.
   */
  lemma WindowSignalIgnoresTheFutureIff(
    s: Setup, s': Setup, mode: Mode, day: int, t: int, signal: Signal) returns (m: nat)
    requires mode != Fixed && DaySignal(s, mode, day) == Gives(Some(signal)) && signal.time <= t
    requires SameFor(s, s', mode, day, t)
    ensures FoundIn(s, mode, day, m, signal)
    ensures DaySignal(s', mode, day) == Gives(Some(signal))
            <==> && HasEntry(s', signal, day) && m < |DayWindows(s', day)|
                 && Undisturbed(s, s', mode, day, m, t, signal)
  {
    m := FoundInOne(s, mode, day, signal);
    if DaySignal(s', mode, day) == Gives(Some(signal)) {
      KeptSignalWasUndisturbed(s, s', mode, day, t, m, signal);
    } else if HasEntry(s', signal, day) && m < |DayWindows(s', day)|
              && Undisturbed(s, s', mode, day, m, t, signal) {
      UndisturbedKeepsSignal(s, s', mode, day, t, m, signal);
    }
  }

  /** The window of the signal opens wherever the day goes on after the trigger. */
  lemma GoesOnOpensWindow(
    s: Setup, s': Setup, mode: Mode, day: int, t: int, m: nat, signal: Signal, later: int)
    requires SameHistory(s, s', day, t) && signal.time <= t && FoundIn(s, mode, day, m, signal)
    requires later > signal.time && later in DayTimes(s', day)
    ensures m < |DayWindows(s', day)|
  {
    ChosenIsInWindow(s, mode, day, DayWindows(s, day)[m], signal);
    DayTimesAscend(s, day);
    DayTimesAscend(s', day);
    SameTimes(s, s', day, t);
    WindowOpens(DayTimes(s, day), DayTimes(s', day), t, m, later);
  }

  /** Each window ends before a later one starts. */
  ghost predicate Spaced(windows: seq<Window>) {
    forall j, k :: 0 <= j < k < |windows| ==> windows[j].end <= windows[k].start
  }

  lemma {:induction false} GapsAdd(times: seq<int>, i: nat, n: nat)
    requires forall k :: 0 <= k < |times| - 1 ==> times[k + 1] >= times[k] + 300
    requires i + n < |times|
    ensures times[i + n] >= times[i] + 300 * n
  {
    if n > 0 {
      GapsAdd(times, i, n - 1);
      assert times[i + n - 1 + 1] >= times[i + n - 1] + 300;
    }
  }

  /** Windows do not overlap where the day's times, of all tickers, are five minutes apart or more. */
  lemma ApartIsSpaced(s: Setup, day: int)
    requires var times := DayTimes(s, day);
             forall k :: 0 <= k < |times| - 1 ==> times[k + 1] >= times[k] + 300
    ensures Spaced(DayWindows(s, day))
  {
    var times := DayTimes(s, day);
    forall j, k | 0 <= j < k < |DayWindows(s, day)|
      ensures DayWindows(s, day)[j].end <= DayWindows(s, day)[k].start
    {
      WindowsAt(times, 0, j);
      WindowsAt(times, 0, k);
      GapsAdd(times, 3 * j, 3 * k - 3 * j);
    }
  }

  /** Where windows do not overlap nothing triggers late in a window before the one with the signal. */
  lemma SpacedLeavesNoneLate(
    s: Setup, s': Setup, mode: Mode, day: int, m: nat, t: int, signal: Signal, ticker: string, j: nat)
    requires FoundIn(s, mode, day, m, signal) && signal.time <= t && j < m
    requires Spaced(DayWindows(s, day))
    ensures !Late(s', ticker, day, Some(DayWindows(s, day)[j]), t)
  {
    ChosenIsInWindow(s, mode, day, DayWindows(s, day)[m], signal);
    assert DayWindows(s, day)[j].end <= DayWindows(s, day)[m].start <= t;
  }

  /** Then the trade is the same too, if the histories agree up to its exit and a rule ends it. */
  lemma SameSignalSameTrade(
    s: Setup, s': Setup, day: int, signal: Signal, k: nat, trade: Trade, trade': Trade)
    requires s'.rules == s.rules
    requires IsTradeOf(s, signal, day, trade) && IsTradeOf(s', signal, day, trade')
    requires FirstExit(TodayOf(s, signal, day), signal.entry, k, s.rules)
    requires k < |TodayOf(s', signal, day)|
    requires TodayOf(s, signal, day)[..k + 1] == TodayOf(s', signal, day)[..k + 1]
    ensures trade == trade' && !trade.reason.EndOfDay?
  {
    TradeIgnoresLaterBars(
      signal.ticker, TodayOf(s, signal, day), TodayOf(s', signal, day), signal.entry, k, s.rules,
      trade, trade');
  }
}
