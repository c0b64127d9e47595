/** When what has happened by a time, with the opening bars, already settles the signal of the day. */
module SettledSignals {
  import opened CandidateForesight
  import opened CandidateSelection
  import opened Common
  import opened DayForesight
  import opened DaySignals
  import opened TradeSimulation

  /** The signal can be taken: its entry bar is there, and with windows the day goes on after it. */
  ghost predicate Enterable(s: Setup, mode: Mode, day: int, signal: Signal) {
    && HasEntry(s, signal, day)
    && (mode != Fixed ==> exists later :: later in DayTimes(s, day) && later > signal.time)
  }

  /**
   * Whatever happens after `t` and after the opening bars, the signal stays the day's as long as it
   * can be taken. The opening bars of each ticker, its first three and those of its first time, are
   * held fixed even where they come after `t`.
   */
  ghost predicate SettledAfterOpening(s: Setup, mode: Mode, day: int, t: int, signal: Signal) {
    forall s' :: SameHistory(s, s', day, t) && SameOpenings(s, s', day)
                 && Enterable(s', mode, day, signal) ==>
                   DaySignal(s', mode, day) == Gives(Some(signal))
  }

  /** The bars of each ticker's day are in time order. */
  ghost predicate Orderly(s: Setup, day: int) {
    forall ticker :: ticker in s.tickers ==> InTimeOrder(BarsForDay(BarsOf(s.history, ticker), day))
  }

  /** The history of each ticker is cleaned. */
  ghost predicate CleanDays(s: Setup, day: int) {
    forall ticker :: ticker in s.tickers ==> Clean(BarsOf(s.history, ticker), day)
  }

  // ---- what can be told at the time -------------------------------------------------------

  /** One of these tickers waits for a bar to enter on, with a signal before this one. */
  ghost predicate EarlierPending(
    s: Setup, active: seq<string>, day: int, w: Option<Window>, t: int, signal: Signal)
  {
    exists ticker, other :: ticker in active && Pending(s, ticker, day, w, t, other)
                            && !SignalLeq(signal, other)
  }

  /** The time `t`, but not before the first bar. */
  function NotBeforeOpening(today: seq<Bar>, t: int): int
    requires today != []
  {
    Max(t, today[0].time)
  }

  /** The bars that are fixed: those by `t`, and the opening bars. */
  function Kept(today: seq<Bar>, t: int): seq<Bar>
    requires |today| >= 3
  {
    today[..Min(Max(3, |Visible(today, NotBeforeOpening(today, t))|), |today|)]
  }

  /** The earliest time of a further bar. */
  function NextFree(today: seq<Bar>, t: int): int
    requires |today| >= 3
  {
    Max(NotBeforeOpening(today, t) + 1, today[2].time)
  }

  /**
   * Of the bars that are fixed the last one triggers, or the window is still open for further ones:
   * some continuation has a signal.
   */
  ghost predicate MayTriggerFrom(
    today: seq<Bar>, previous: seq<Bar>, w: Window, f: Filters, t: int)
  {
    && |today| >= 3 && Eligible(today, previous, f)
    && var kept := Kept(today, t);
       NextFree(today, t) < w.end
       || Triggers(kept, |kept| - 1, Breakout(today, previous, f).value, Some(w))
  }

  ghost predicate MayTrigger(s: Setup, ticker: string, day: int, w: Window, t: int) {
    var bars := BarsOf(s.history, ticker);
    MayTriggerFrom(BarsForDay(bars, day), PreviousDayBars(bars, day), w, s.filters, t)
  }

  // ---- then nothing that comes matters ------------------------------------------------------

  lemma ShortDayIsFixed(today: seq<Bar>, today': seq<Bar>)
    requires FirstThree(today) == FirstThree(today') && |today| < 3
    ensures today == today'
  {
    assert FirstThree(today) == today;
    assert FirstThree(today') == today';
  }

  lemma KeptBars(today: seq<Bar>, t: int)
    requires InTimeOrder(today) && |today| >= 3
    ensures var kept, n := Kept(today, t), |Visible(today, NotBeforeOpening(today, t))|;
            && 3 <= |kept| <= |today| && n <= |kept| && kept == today[..|kept|]
            && (|kept| > 3 ==> |kept| == n)
            && (forall i :: 0 <= i < |kept| ==> kept[i].time <= NextFree(today, t))
            && (forall i :: |kept| <= i < |today| ==> today[i].time > NotBeforeOpening(today, t))
  {
    SeenPrefix(today, NotBeforeOpening(today, t));
  }

  lemma SameUntilOpening(today: seq<Bar>, today': seq<Bar>, t: int)
    requires SameDayUntil(today, today', t) && SameAtOpening(today, today') && |today| >= 3
    ensures SameDayUntil(today, today', NotBeforeOpening(today, t))
  {
    assert today[0] == FirstThree(today)[0] == today'[0];
  }

  /** The signal's absence, in bars: nothing but the last bar triggers. */
  lemma QuietDay(
    today: seq<Bar>, previous: seq<Bar>, ticker: string, w: Option<Window>, f: Filters, i: nat)
    requires SignalFrom(today, previous, ticker, w, f) == Gives(None) && Eligible(today, previous, f)
    requires i + 1 < |today|
    ensures !Triggers(today, i, Breakout(today, previous, f).value, w)
  {
  }

  lemma NoneMayTrigger(
    today: seq<Bar>, today': seq<Bar>, previous: seq<Bar>, ticker: string, w: Window, f: Filters,
    t: int)
    requires SameDayUntil(today, today', t) && SameAtOpening(today, today')
    requires SignalFrom(today, previous, ticker, Some(w), f) == Gives(None)
    requires !MayTriggerFrom(today, previous, w, f, t)
    ensures !TriggersLate(today', previous, Some(w), f, t)
    ensures forall other :: !PendingFrom(today, previous, ticker, Some(w), f, t, other)
  {
    SameEligible(today, today', previous, f);
    if |today| >= 3 {
      KeptBars(today, t);
    }
    if TriggersLate(today', previous, Some(w), f, t) {
      var i :| 0 <= i < |today'| - 1 && today'[i].time > t
               && Triggers(today', i, Breakout(today', previous, f).value, Some(w));
      LateTriggerMay(today, today', previous, ticker, w, f, t, i);
    }
  }

  lemma LateTriggerMay(
    today: seq<Bar>, today': seq<Bar>, previous: seq<Bar>, ticker: string, w: Window, f: Filters,
    t: int, i: nat)
    requires SameDayUntil(today, today', t) && SameAtOpening(today, today')
    requires Eligible(today', previous, f)
    requires SignalFrom(today, previous, ticker, Some(w), f) == Gives(None)
    requires i + 1 < |today'| && today'[i].time > t
    requires Triggers(today', i, Breakout(today', previous, f).value, Some(w))
    ensures MayTriggerFrom(today, previous, w, f, t)
  {
    SameEligible(today, today', previous, f);
    if |today| < 3 {
      ShortDayIsFixed(today, today');
      QuietDay(today, previous, ticker, Some(w), f, i);
      assert false;
    } else {
      KeptBars(today, t);
      SameUntilOpening(today, today', t);
      SameBars(today, today', NotBeforeOpening(today, t));
      assert forall j :: 0 <= j < 3 ==> today[j] == FirstThree(today)[j] == today'[j];
      if i < |Kept(today, t)| && i + 1 < |today| {
        QuietDay(today, previous, ticker, Some(w), f, i);
      }
    }
  }

  // ---- and otherwise something can ------------------------------------------------------------

  /** Two later bars, the first of which reaches a given price. */
  function Tail(day: int, free: int, price: real): seq<Bar> {
    [Bar(day, free, 1.0, MaxReal(1.0, price), 1.0, 1.0, 0.0), Bar(day, free + 1, 1.0, 1.0, 1.0, 1.0, 0.0)]
  }

  /** A history with another day. */
  function Rebuilt(bars: seq<Bar>, day: int, today: seq<Bar>): seq<Bar> {
    Filter(Before(day), bars) + today
  }

  lemma RebuiltParts(bars: seq<Bar>, day: int, today: seq<Bar>)
    requires forall b :: b in today ==> b.day == day
    ensures Filter(Before(day), Rebuilt(bars, day, today)) == Filter(Before(day), bars)
    ensures BarsForDay(Rebuilt(bars, day, today), day) == today
    ensures PreviousDayBars(Rebuilt(bars, day, today), day) == PreviousDayBars(bars, day)
  {
    KeepFront(Before(day), Filter(Before(day), bars), today);
    KeepBack(OnDay(day), Filter(Before(day), bars), today);
    PreviousBarsOfEarlier(bars, Rebuilt(bars, day, today), day);
  }

  function WithDay(s: Setup, ticker: string, day: int, today: seq<Bar>): Setup {
    s.(history := s.history[ticker := Rebuilt(BarsOf(s.history, ticker), day, today)])
  }

  /** The ticker's fixed bars, and two later ones. */
  function Longer(today: seq<Bar>, day: int, t: int, price: real): seq<Bar>
    requires |today| >= 3
  {
    Kept(today, t) + Tail(day, NextFree(today, t), price)
  }

  lemma LongerOrdered(today: seq<Bar>, day: int, t: int, price: real)
    requires InTimeOrder(today) && |today| >= 3
    ensures InTimeOrder(Longer(today, day, t, price))
  {
    KeptBars(today, t);
  }

  lemma LongerDay(today: seq<Bar>, day: int, t: int, price: real)
    requires InTimeOrder(today) && |today| >= 3
    ensures var today' := Longer(today, day, t, price);
            && SameDayUntil(today, today', t) && SameAtOpening(today, today')
            && HasLater(today', t) && |today'| == |Kept(today, t)| + 2
  {
    var last := NotBeforeOpening(today, t);
    var kept, today' := Kept(today, t), Longer(today, day, t, price);
    LongerOrdered(today, day, t, price);
    KeptBars(today, t);
    SeenPrefix(today, last);
    var n := |Visible(today, last)|;
    SplitVisible(today', n, last);
    assert today'[..n] == today[..n];
    assert FirstThree(today) == kept[..3] == FirstThree(today');
    VisibleTwice(today, t, last);
    VisibleTwice(today', t, last);
    VisibleTwice(today, today[0].time, last);
    VisibleTwice(today', today[0].time, last);
    NoneMissing(today', t);
  }

  lemma LongerMembers(today: seq<Bar>, day: int, t: int, price: real)
    requires |today| >= 3
    ensures forall b :: b in Longer(today, day, t, price) ==>
                          b in today || (b.day == day && ValidBar(b))
  {
    var kept := Kept(today, t);
    forall b | b in kept ensures b in today { }
    assert forall b :: b in Longer(today, day, t, price) ==>
                         b in kept || b in Tail(day, NextFree(today, t), price);
  }

  lemma RebuiltIsValid(bars: seq<Bar>, day: int, today: seq<Bar>)
    requires AllValid(bars) && AllValid(today)
    ensures AllValid(Rebuilt(bars, day, today))
  {
  }

  lemma NoneMissing(today: seq<Bar>, t: int)
    requires today != [] && today[|today| - 1].time > t
    ensures HasLater(today, t)
  {
    var front, last := today[..|today| - 1], today[|today| - 1];
    assert today == front + [last];
    FilterAppend(Until(t), front, [last]);
    FilterNone(Until(t), [last]);
  }

  /** The bars by `t` are the first `n`. */
  lemma SplitVisible(bars: seq<Bar>, n: nat, t: int)
    requires n <= |bars| && (forall i :: 0 <= i < n ==> bars[i].time <= t)
    requires forall i :: n <= i < |bars| ==> bars[i].time > t
    ensures Visible(bars, t) == bars[..n]
  {
    KeepFront(Until(t), bars[..n], bars[n..]);
    assert bars == bars[..n] + bars[n..];
  }

  /** The history where the ticker's day goes on like that. */
  function Extended(s: Setup, ticker: string, day: int, t: int, price: real): Setup
    requires |BarsForDay(BarsOf(s.history, ticker), day)| >= 3
  {
    WithDay(s, ticker, day, Longer(BarsForDay(BarsOf(s.history, ticker), day), day, t, price))
  }

  lemma ExtendedAgrees(s: Setup, ticker: string, day: int, t: int, price: real)
    requires Orderly(s, day) && ticker in s.tickers
    requires |BarsForDay(BarsOf(s.history, ticker), day)| >= 3
    ensures var s' := Extended(s, ticker, day, t, price);
            var today' := BarsForDay(BarsOf(s'.history, ticker), day);
            && SameHistory(s, s', day, t) && SameOpenings(s, s', day)
            && Continues(s', ticker, day, t)
            && today' == Longer(BarsForDay(BarsOf(s.history, ticker), day), day, t, price)
  {
    var today, s' := BarsForDay(BarsOf(s.history, ticker), day), Extended(s, ticker, day, t, price);
    LongerDay(today, day, t, price);
    LongerMembers(today, day, t, price);
    RebuiltParts(BarsOf(s.history, ticker), day, Longer(today, day, t, price));
    forall other | other in s.tickers
      ensures var a, b := BarsOf(s.history, other), BarsOf(s'.history, other);
              && Filter(Before(day), a) == Filter(Before(day), b)
              && SameDayUntil(BarsForDay(a, day), BarsForDay(b, day), t)
              && SameAtOpening(BarsForDay(a, day), BarsForDay(b, day))
    {
      assert other != ticker ==> BarsOf(s'.history, other) == BarsOf(s.history, other);
    }
  }

  /** A cleaned history stays one. */
  lemma ExtendedIsClean(s: Setup, ticker: string, day: int, t: int, price: real)
    requires CleanDays(s, day) && ticker in s.tickers
    requires |BarsForDay(BarsOf(s.history, ticker), day)| >= 3
    ensures CleanDays(Extended(s, ticker, day, t, price), day)
  {
    var today := BarsForDay(BarsOf(s.history, ticker), day);
    LongerOrdered(today, day, t, price);
    LongerMembers(today, day, t, price);
    RebuiltParts(BarsOf(s.history, ticker), day, Longer(today, day, t, price));
    RebuiltIsValid(BarsOf(s.history, ticker), day, Longer(today, day, t, price));
  }

  lemma ExtendedEnterable(
    s: Setup, mode: Mode, ticker: string, day: int, t: int, price: real, signal: Signal)
    requires Orderly(s, day) && ticker in s.tickers
    requires |BarsForDay(BarsOf(s.history, ticker), day)| >= 3
    requires signal.time <= t && HasEntry(s, signal, day) && 1 <= signal.entry
    requires TodayOf(s, signal, day)[signal.entry - 1].time == signal.time
    ensures Enterable(Extended(s, ticker, day, t, price), mode, day, signal)
  {
    var today, s' := BarsForDay(BarsOf(s.history, ticker), day), Extended(s, ticker, day, t, price);
    ExtendedAgrees(s, ticker, day, t, price);
    KeptBars(today, t);
    var i := |Longer(today, day, t, price)| - 1;
    BarTimeIsListed(s', ticker, day, i);
    assert Longer(today, day, t, price)[i].time > signal.time;
  }

  lemma MayBecomeSignal(
    today: seq<Bar>, previous: seq<Bar>, ticker: string, w: Window, f: Filters, day: int, t: int)
    requires InTimeOrder(today) && MayTriggerFrom(today, previous, w, f, t) && w.start <= t
    ensures SignalFrom(
              Longer(today, day, t, Breakout(today, previous, f).value), previous, ticker, Some(w), f)
            != Gives(None)
  {
    var breakout, kept := Breakout(today, previous, f).value, Kept(today, t);
    var today' := Longer(today, day, t, breakout);
    LongerDay(today, day, t, breakout);
    KeptBars(today, t);
    SameEligible(today, today', previous, f);
    assert today'[|kept|] == Tail(day, NextFree(today, t), breakout)[0];
    assert today'[|kept| - 1] == kept[|kept| - 1];
    if SignalFrom(today', previous, ticker, Some(w), f) == Gives(None) {
      QuietDay(today', previous, ticker, Some(w), f, |kept| - 1);
      QuietDay(today', previous, ticker, Some(w), f, |kept|);
      assert false;
    }
  }

  // ---- the fixed mode ---------------------------------------------------------------------------

  lemma OrderlyIsSame(s: Setup, day: int, t: int)
    requires Orderly(s, day)
    ensures SameHistory(s, s, day, t)
  {
  }

  /** A pending ticker gets its bar in some continuation in which the signal can be taken. */
  lemma PendingContinues(
    s: Setup, mode: Mode, ticker: string, day: int, w: Option<Window>, t: int, other: Signal,
    signal: Signal) returns (s': Setup)
    requires Orderly(s, day) && ticker in s.tickers && Pending(s, ticker, day, w, t, other)
    requires signal.time <= t && HasEntry(s, signal, day) && 1 <= signal.entry
    requires TodayOf(s, signal, day)[signal.entry - 1].time == signal.time
    ensures SameHistory(s, s', day, t) && SameOpenings(s, s', day)
    ensures Enterable(s', mode, day, signal) && Continues(s', ticker, day, t)
    ensures CleanDays(s, day) ==> CleanDays(s', day)
  {
    ExtendedAgrees(s, ticker, day, t, 1.0);
    ExtendedEnterable(s, mode, ticker, day, t, 1.0, signal);
    if CleanDays(s, day) {
      ExtendedIsClean(s, ticker, day, t, 1.0);
    }
    s' := Extended(s, ticker, day, t, 1.0);
  }

  /** A clean history in which the signal is lost though it can be taken. */
  ghost predicate LostIn(s: Setup, s': Setup, mode: Mode, day: int, t: int, signal: Signal) {
    && SameHistory(s, s', day, t) && SameOpenings(s, s', day) && Enterable(s', mode, day, signal)
    && DaySignal(s', mode, day) != Gives(Some(signal))
    && (CleanDays(s, day) ==> CleanDays(s', day))
  }

  lemma PendingLosesFixed(s: Setup, day: int, t: int, signal: Signal) returns (s': Setup)
    requires DaySignal(s, Fixed, day) == Gives(Some(signal)) && signal.time <= t && Orderly(s, day)
    requires EarlierPending(s, s.tickers, day, None, t, signal)
    ensures LostIn(s, s', Fixed, day, t, signal)
  {
    var ticker, other :| ticker in s.tickers && Pending(s, ticker, day, None, t, other)
                         && !SignalLeq(signal, other);
    ChosenIsOwn(s, s.tickers, day, None, signal);
    SignalEnters(s, signal.ticker, day, None, signal);
    s' := PendingContinues(s, Fixed, ticker, day, None, t, other, signal);
    assert Overtaken(s, s', s.tickers, day, None, t, signal);
    FixedSignalIgnoresTheFutureIff(s, s', day, t, signal);
  }

  /**
   * In the fixed mode, with the opening bars given, a signal is settled if and only if no ticker
   * waits with an earlier one.
   */
  lemma FixedSettledAfterOpeningIff(s: Setup, day: int, t: int, signal: Signal)
    requires DaySignal(s, Fixed, day) == Gives(Some(signal)) && signal.time <= t && Orderly(s, day)
    ensures SettledAfterOpening(s, Fixed, day, t, signal)
            <==> !EarlierPending(s, s.tickers, day, None, t, signal)
  {
    if EarlierPending(s, s.tickers, day, None, t, signal) {
      var s' := PendingLosesFixed(s, day, t, signal);
    } else {
      forall s' | SameHistory(s, s', day, t) && Enterable(s', Fixed, day, signal)
        ensures DaySignal(s', Fixed, day) == Gives(Some(signal))
      {
        FixedSignalIgnoresTheFutureIff(s, s', day, t, signal);
      }
    }
  }

  // ---- the other modes ----------------------------------------------------------------------------

  /** Nothing can come of the windows before `m`, and in `m` no ticker waits with an earlier signal. */
  ghost predicate NothingOpen(s: Setup, mode: Mode, day: int, m: nat, t: int, signal: Signal)
    requires FoundIn(s, mode, day, m, signal)
  {
    var windows := DayWindows(s, day);
    && (forall j, ticker :: 0 <= j < m && ticker in Active(s, mode, day, windows[j].start).value ==>
                              !MayTrigger(s, ticker, day, windows[j], t))
    && !EarlierPending(
         s, Active(s, mode, day, windows[m].start).value, day, Some(windows[m]), t, signal)
  }

  lemma ClosedTicker(s: Setup, s': Setup, ticker: string, day: int, w: Window, t: int)
    requires SameHistory(s, s', day, t) && SameOpenings(s, s', day) && ticker in s.tickers
    requires SignalOf(s, ticker, day, Some(w)) == Gives(None) && !MayTrigger(s, ticker, day, w, t)
    ensures !Late(s', ticker, day, Some(w), t)
    ensures forall other :: !Pending(s, ticker, day, Some(w), t, other)
  {
    var a, b := BarsOf(s.history, ticker), BarsOf(s'.history, ticker);
    PreviousBarsOfEarlier(a, b, day);
    NoneMayTrigger(
      BarsForDay(a, day), BarsForDay(b, day), PreviousDayBars(a, day), ticker, w, s.filters, t);
  }

  lemma ClosedWindowUndisturbed(s: Setup, s': Setup, mode: Mode, day: int, w: Window, t: int)
    requires SameHistory(s, s', day, t) && SameOpenings(s, s', day)
    requires SignalIn(s, mode, day, w) == Gives(None)
    requires forall ticker :: ticker in Active(s, mode, day, w.start).value ==>
                                !MayTrigger(s, ticker, day, w, t)
    ensures !Disturbed(s, s', mode, day, w, t)
  {
    var active := Active(s, mode, day, w.start).value;
    ActiveKnown(s, mode, day, w.start);
    FirstSignalNoneIff(s, active, day, Some(w));
    forall ticker | ticker in active
      ensures !Late(s', ticker, day, Some(w), t)
      ensures !exists other :: Pending(s, ticker, day, Some(w), t, other)
    {
      ClosedTicker(s, s', ticker, day, w, t);
    }
  }

  /** A window that may still trigger does so in some continuation. */
  lemma OpenWindowDisturbed(
    s: Setup, mode: Mode, day: int, w: Window, t: int, ticker: string, signal: Signal)
    returns (s': Setup)
    requires Orderly(s, day) && SignalIn(s, mode, day, w) == Gives(None) && w.start <= t
    requires ticker in Active(s, mode, day, w.start).value && MayTrigger(s, ticker, day, w, t)
    requires signal.time <= t && HasEntry(s, signal, day) && 1 <= signal.entry
    requires TodayOf(s, signal, day)[signal.entry - 1].time == signal.time
    ensures SameHistory(s, s', day, t) && SameOpenings(s, s', day)
    ensures Enterable(s', mode, day, signal) && Disturbed(s, s', mode, day, w, t)
    ensures CleanDays(s, day) ==> CleanDays(s', day)
  {
    ActiveKnown(s, mode, day, w.start);
    var bars := BarsOf(s.history, ticker);
    var today, previous := BarsForDay(bars, day), PreviousDayBars(bars, day);
    var price := Breakout(today, previous, s.filters).value;
    ExtendedAgrees(s, ticker, day, t, price);
    ExtendedEnterable(s, mode, ticker, day, t, price, signal);
    if CleanDays(s, day) {
      ExtendedIsClean(s, ticker, day, t, price);
    }
    s' := Extended(s, ticker, day, t, price);
    MayBecomeSignal(today, previous, ticker, w, s.filters, day, t);
    PreviousBarsOfEarlier(bars, BarsOf(s'.history, ticker), day);
    assert SignalOf(s', ticker, day, Some(w)) != Gives(None);
    SameActive(s, s', mode, day, w.start, t);
    FirstSignalNoneIff(s', Active(s, mode, day, w.start).value, day, Some(w));
    QuietWindowStaysIff(s, s', mode, day, w, t);
  }

  /** A pending ticker overtakes the signal of its window in some continuation. */
  lemma PendingOvertakes(s: Setup, mode: Mode, day: int, w: Window, t: int, signal: Signal)
    returns (s': Setup)
    requires Orderly(s, day) && SignalIn(s, mode, day, w) == Gives(Some(signal)) && signal.time <= t
    requires EarlierPending(s, Active(s, mode, day, w.start).value, day, Some(w), t, signal)
    ensures SameHistory(s, s', day, t) && SameOpenings(s, s', day)
    ensures Enterable(s', mode, day, signal)
    ensures Overtaken(s, s', Active(s, mode, day, w.start).value, day, Some(w), t, signal)
    ensures CleanDays(s, day) ==> CleanDays(s', day)
  {
    var active := Active(s, mode, day, w.start).value;
    var ticker, other :| ticker in active && Pending(s, ticker, day, Some(w), t, other)
                         && !SignalLeq(signal, other);
    ChosenIsInWindow(s, mode, day, w, signal);
    ActiveKnown(s, mode, day, w.start);
    s' := PendingContinues(s, mode, ticker, day, Some(w), t, other, signal);
  }

  /** A history where something open comes about. */
  lemma OpenComesAbout(s: Setup, mode: Mode, day: int, m: nat, t: int, signal: Signal)
    returns (s': Setup)
    requires FoundIn(s, mode, day, m, signal) && signal.time <= t && Orderly(s, day)
    requires !NothingOpen(s, mode, day, m, t, signal)
    ensures SameHistory(s, s', day, t) && SameOpenings(s, s', day)
    ensures Enterable(s', mode, day, signal) && !Undisturbed(s, s', mode, day, m, t, signal)
    ensures CleanDays(s, day) ==> CleanDays(s', day)
  {
    var windows := DayWindows(s, day);
    ChosenIsInWindow(s, mode, day, windows[m], signal);
    OrderlyIsSame(s, day, t);
    SameWindowsUpTo(s, s, day, t, m);
    if j, ticker :| 0 <= j < m && ticker in Active(s, mode, day, windows[j].start).value
                    && MayTrigger(s, ticker, day, windows[j], t) {
      s' := OpenWindowDisturbed(s, mode, day, windows[j], t, ticker, signal);
    } else {
      s' := PendingOvertakes(s, mode, day, windows[m], t, signal);
    }
  }

  lemma OpenLosesWindow(s: Setup, mode: Mode, day: int, m: nat, t: int, signal: Signal)
    returns (s': Setup)
    requires mode != Fixed && FoundIn(s, mode, day, m, signal) && signal.time <= t && Orderly(s, day)
    requires !NothingOpen(s, mode, day, m, t, signal)
    ensures LostIn(s, s', mode, day, t, signal)
  {
    s' := OpenComesAbout(s, mode, day, m, t, signal);
    if DaySignal(s', mode, day) == Gives(Some(signal)) {
      KeptSignalWasUndisturbed(s, s', mode, day, t, m, signal);
    }
  }

  lemma ClosedKeepsSignal(
    s: Setup, s': Setup, mode: Mode, day: int, m: nat, t: int, signal: Signal)
    requires mode != Fixed && FoundIn(s, mode, day, m, signal) && signal.time <= t
    requires NothingOpen(s, mode, day, m, t, signal) && Enterable(s', mode, day, signal)
    requires SameHistory(s, s', day, t) && SameOpenings(s, s', day)
    ensures DaySignal(s', mode, day) == Gives(Some(signal))
  {
    var later :| later in DayTimes(s', day) && later > signal.time;
    GoesOnOpensWindow(s, s', mode, day, t, m, signal, later);
    forall j | 0 <= j < m ensures !Disturbed(s, s', mode, day, DayWindows(s, day)[j], t) {
      ClosedWindowUndisturbed(s, s', mode, day, DayWindows(s, day)[j], t);
    }
    UndisturbedKeepsSignal(s, s', mode, day, t, m, signal);
  }

  /**
   * In the refresh and hybrid modes, with the opening bars given, a signal found in window `m` is
   * settled if and only if no ticker active in a window before can still trigger there, and none
   * active in `m` waits with an earlier signal.
   */
  lemma WindowSettledAfterOpeningIff(s: Setup, mode: Mode, day: int, t: int, signal: Signal)
    returns (m: nat)
    requires mode != Fixed && DaySignal(s, mode, day) == Gives(Some(signal)) && signal.time <= t
    requires Orderly(s, day)
    ensures FoundIn(s, mode, day, m, signal)
    ensures SettledAfterOpening(s, mode, day, t, signal) <==> NothingOpen(s, mode, day, m, t, signal)
  {
    m := FoundInOne(s, mode, day, signal);
    if NothingOpen(s, mode, day, m, t, signal) {
      forall s' | SameHistory(s, s', day, t) && SameOpenings(s, s', day)
                  && Enterable(s', mode, day, signal)
        ensures DaySignal(s', mode, day) == Gives(Some(signal))
      {
        ClosedKeepsSignal(s, s', mode, day, m, t, signal);
      }
    } else {
      var s' := OpenLosesWindow(s, mode, day, m, t, signal);
    }
  }

  /** What is not settled is lost in some history, a clean one if this one is. */
  lemma UnsettledIsLost(s: Setup, mode: Mode, day: int, t: int, signal: Signal) returns (s': Setup)
    requires DaySignal(s, mode, day) == Gives(Some(signal)) && signal.time <= t && Orderly(s, day)
    requires !SettledAfterOpening(s, mode, day, t, signal)
    ensures LostIn(s, s', mode, day, t, signal)
  {
    if mode == Fixed {
      FixedSettledAfterOpeningIff(s, day, t, signal);
      s' := PendingLosesFixed(s, day, t, signal);
    } else {
      var m := WindowSettledAfterOpeningIff(s, mode, day, t, signal);
      s' := OpenLosesWindow(s, mode, day, m, t, signal);
    }
  }

  // ---- whatever comes ---------------------------------------------------------------------------

  /** The histories agree on all that has happened by `t`, and on nothing that comes after. */
  ghost predicate SamePast(s: Setup, s': Setup, day: int, t: int) {
    && s' == s.(history := s'.history)
    && forall ticker :: ticker in s.tickers ==>
                          SameUntil(BarsOf(s.history, ticker), BarsOf(s'.history, ticker), day, t)
  }

  /**
   * Whatever happens after `t` in a cleaned history, the signal stays the day's as long as it can be
   * taken.
   */
  ghost predicate SettledSignal(s: Setup, mode: Mode, day: int, t: int, signal: Signal) {
    forall s' :: SamePast(s, s', day, t) && CleanDays(s', day) && Enterable(s', mode, day, signal) ==>
                   DaySignal(s', mode, day) == Gives(Some(signal))
  }

  ghost predicate ThreeSeen(s: Setup, day: int, t: int) {
    forall ticker :: ticker in s.tickers ==>
                       |Visible(BarsForDay(BarsOf(s.history, ticker), day), t)| >= 3
  }

  lemma ThreeSeenFixOpening(s: Setup, s': Setup, day: int, t: int)
    requires Orderly(s, day) && Orderly(s', day) && SamePast(s, s', day, t) && ThreeSeen(s, day, t)
    ensures SameHistory(s, s', day, t) && SameOpenings(s, s', day)
  {
    forall ticker | ticker in s.tickers
      ensures var today, today' := BarsForDay(BarsOf(s.history, ticker), day),
                                   BarsForDay(BarsOf(s'.history, ticker), day);
              SameDayUntil(today, today', t) && SameAtOpening(today, today')
    {
      var today, today' := BarsForDay(BarsOf(s.history, ticker), day),
                           BarsForDay(BarsOf(s'.history, ticker), day);
      ThreeSeenSameOpening(today, today', t);
    }
  }

  lemma ThreeSeenSameOpening(today: seq<Bar>, today': seq<Bar>, t: int)
    requires InTimeOrder(today) && InTimeOrder(today') && Visible(today, t) == Visible(today', t)
    requires |Visible(today, t)| >= 3
    ensures SameDayUntil(today, today', t) && SameAtOpening(today, today')
  {
    SeenPrefix(today, t);
    SeenPrefix(today', t);
    var seen := Visible(today, t);
    assert FirstThree(today) == seen[..3] && FirstThree(today') == seen[..3];
    assert today[0] == seen[0] == today'[0];
    VisibleTwice(today, today[0].time, t);
    VisibleTwice(today', today[0].time, t);
  }

  /** From the third bar of every ticker on, the opening no longer matters, in any mode. */
  lemma SettledOnceThreeSeen(s: Setup, mode: Mode, day: int, t: int, signal: Signal)
    requires DaySignal(s, mode, day) == Gives(Some(signal)) && signal.time <= t
    requires CleanDays(s, day) && ThreeSeen(s, day, t)
    ensures SettledSignal(s, mode, day, t, signal) <==> SettledAfterOpening(s, mode, day, t, signal)
  {
    if SettledAfterOpening(s, mode, day, t, signal) {
      forall s' | SamePast(s, s', day, t) && CleanDays(s', day) && Enterable(s', mode, day, signal)
        ensures DaySignal(s', mode, day) == Gives(Some(signal))
      {
        ThreeSeenFixOpening(s, s', day, t);
      }
    } else {
      var s' := UnsettledIsLost(s, mode, day, t, signal);
      assert SamePast(s, s', day, t);
    }
  }
}
