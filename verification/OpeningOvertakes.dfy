/** Days whose signal is overtaken because opening volume that was still to come lets a ticker in. */
module OpeningOvertakes {
  import opened CandidateForesight
  import opened CandidateSelection
  import opened Common
  import opened DayForesight
  import opened DaySignals
  import opened Grouping
  import OvertakenSignals
  import opened SettledSignals
  import opened TradeSimulation

  /** The opening volume must reach that of the day before. */
  const FILTERS := Filters(1.0, 100.0, 0.0, 1.0, 0.5, 0.5, 3)

  /** With this day before, and an opening price of 10, the breakout price is 11. */
  const BUSY := Bar(0, 0, 10.0, 12.0, 10.0, 10.0, 100.0)

  function A(s: Setup): string
    requires |s.tickers| == 2
  {
    s.tickers[0]
  }

  function B(s: Setup): string
    requires |s.tickers| == 2
  {
    s.tickers[1]
  }

  /** A run over two tickers with these days, and with room for both in every list. */
  ghost predicate Two(s: Setup, a: seq<Bar>, b: seq<Bar>) {
    && |s.tickers| == 2 && A(s) != B(s) && s.filters == FILTERS && s.hybridLimit >= 2
    && BarsOf(s.history, A(s)) == [BUSY] + a && BarsOf(s.history, B(s)) == [BUSY] + b
  }

  /** Three bars, the first of which opens at 10. */
  ghost predicate IsOpening(bars: seq<Bar>) {
    OvertakenSignals.IsToday(bars) && AllValid(bars) && |bars| == 3 && bars[0].open == 10.0
  }

  /**
   * A reaches its breakout with its first bar, B with its second. The volume of A's third bar is too
   * low in one history, and not in the other.
   */
  ghost predicate VolumeArrives(a: seq<Bar>, a': seq<Bar>, b: seq<Bar>) {
    && IsOpening(a) && IsOpening(a') && IsOpening(b) && a[..2] == a'[..2] && a[0].high >= 11.0
    && (forall i :: 0 <= i < 3 ==> a[i].time == a'[i].time == b[i].time)
    && OpeningVolume(a) < 100.0 <= OpeningVolume(a') && OpeningVolume(b) >= 100.0
    && 10.78 <= b[0].high < 11.0 <= b[1].high && b[1].time < b[0].time + WINDOW_SECONDS
  }

  // ---- one ticker ------------------------------------------------------------------------

  lemma OpeningDay(s: Setup, ticker: string, today: seq<Bar>)
    requires IsOpening(today) && BarsOf(s.history, ticker) == [BUSY] + today
    ensures Filter(Before(1), BarsOf(s.history, ticker)) == [BUSY]
    ensures BarsForDay(BarsOf(s.history, ticker), 1) == today
    ensures PreviousDayBars(BarsOf(s.history, ticker), 1) == [BUSY]
    ensures Clean(BarsOf(s.history, ticker), 1)
  {
    OvertakenSignals.DayAfter(BUSY, today);
  }

  lemma EligibleIff(today: seq<Bar>)
    requires IsOpening(today)
    ensures Breakout(today, [BUSY], FILTERS) == Gives(11.0)
    ensures PassesOpeningFilters(today, [BUSY], FILTERS) <==> OpeningVolume(today) >= 100.0
    ensures Eligible(today, [BUSY], FILTERS) <==> OpeningVolume(today) >= 100.0
  {
    assert FirstThree([BUSY]) == [BUSY] && [BUSY][1..] == [];
    assert SumBy(Volume, []) == 0.0;
    assert SumBy(Volume, [BUSY]) == 100.0;
  }

  /** The signal of a ticker that passes is its first trigger but for the last bar. */
  lemma OpeningSignal(s: Setup, ticker: string, today: seq<Bar>, w: Option<Window>, k: nat)
    requires IsOpening(today) && BarsOf(s.history, ticker) == [BUSY] + today && s.filters == FILTERS
    requires OpeningVolume(today) >= 100.0 && k < 2 && Triggers(today, k, 11.0, w)
    requires forall j :: 0 <= j < k ==> !Triggers(today, j, 11.0, w)
    ensures SignalOf(s, ticker, 1, w) == Gives(Some(Signal(today[k].time, ticker, k + 1)))
  {
    OpeningDay(s, ticker, today);
    EligibleIff(today);
    SignalTriggers(today, [BUSY], ticker, w, FILTERS, k);
  }

  lemma TooQuiet(s: Setup, ticker: string, today: seq<Bar>, w: Option<Window>)
    requires IsOpening(today) && BarsOf(s.history, ticker) == [BUSY] + today && s.filters == FILTERS
    requires OpeningVolume(today) < 100.0
    ensures SignalOf(s, ticker, 1, w) == Gives(None)
  {
    OpeningDay(s, ticker, today);
    EligibleIff(today);
  }

  /** At its first bar a ticker is a candidate if it passes and has come near its breakout. */
  lemma OpeningIsCandidate(s: Setup, ticker: string, today: seq<Bar>)
    requires IsOpening(today) && BarsOf(s.history, ticker) == [BUSY] + today && s.filters == FILTERS
    ensures var c := CandidateOf(BarsOf(s.history, ticker), ticker, 1, today[0].time, FILTERS);
            && c.Gives? && (c.value.Some? ==> c.value.value.ticker == ticker)
            && (OpeningVolume(today) >= 100.0 && today[0].high >= 10.78 ==> c.value.Some?)
  {
    OpeningDay(s, ticker, today);
    EligibleIff(today);
    SplitVisible(today, 1, today[0].time);
  }

  // ---- the first window --------------------------------------------------------------------

  lemma {:induction false} FewDistinct(tickers: seq<string>, allowed: set<string>)
    requires NoDuplicates(tickers) && forall t :: t in tickers ==> t in allowed
    ensures |tickers| <= |allowed|
  {
    if tickers != [] {
      assert tickers[0] in tickers;
      forall t | t in tickers[1..] ensures t in allowed - {tickers[0]} {
        var i :| 0 <= i < |tickers| - 1 && tickers[1..][i] == t;
        assert tickers[i + 1] == t && tickers[i + 1] in tickers;
      }
      FewDistinct(tickers[1..], allowed - {tickers[0]});
    }
  }

  /** With room for both tickers the hybrid list holds all that the refreshed one does. */
  lemma ActiveHolds(s: Setup, mode: Mode, start: int, ticker: string)
    requires |s.tickers| == 2 && s.hybridLimit >= 2 && s.filters.refreshLimit >= 2 && mode != Fixed
    requires OvertakenSignals.AllAnswer(s, s.tickers, start)
    requires ticker in s.tickers && OvertakenSignals.IsCandidate(s, ticker, start)
    ensures Active(s, mode, 1, start).Gives? && ticker in Active(s, mode, 1, start).value
  {
    OvertakenSignals.RefreshedHolds(s, start);
    if mode == Hybrid {
      ActiveKnown(s, Refresh, 1, start);
      OpeningKnown(s);
      TwoMembers(s);
      MergedHolds(
        OpeningCandidates(s, 1), Active(s, Refresh, 1, start).value, s.hybridLimit, {A(s), B(s)},
        ticker);
    }
  }

  lemma MergedHolds(
    fixed: seq<string>, refreshed: seq<string>, limit: int, allowed: set<string>, ticker: string)
    requires forall t :: t in fixed || t in refreshed ==> t in allowed
    requires |allowed| <= limit && ticker in refreshed
    ensures ticker in Merged(fixed, refreshed, limit)
  {
    var all := Distinct(fixed + refreshed);
    DistinctFacts(fixed + refreshed);
    FewDistinct(all, allowed);
    assert all[..|all|] == all;
  }

  lemma OpeningKnown(s: Setup)
    ensures forall t :: t in OpeningCandidates(s, 1) ==> t in s.tickers
  {
    if Gather(OpeningOn(s, 1), s.tickers).Gives? {
      OpeningNamed(s, s.tickers, 1);
      RankedNamed(Gather(OpeningOn(s, 1), s.tickers).value, s.openingLimit, s.tickers);
    }
  }

  lemma FirstWindow(s: Setup, a: seq<Bar>, b: seq<Bar>)
    requires Two(s, a, b) && IsOpening(a) && IsOpening(b)
    requires forall i :: 0 <= i < 3 ==> a[i].time == b[i].time
    ensures DayWindows(s, 1) != []
    ensures DayWindows(s, 1)[0] == Window(b[0].time, b[0].time + WINDOW_SECONDS)
  {
    OpeningDay(s, A(s), a);
    OpeningDay(s, B(s), b);
    OvertakenSignals.AllTimesOfTwo(s, a, b);
    DayTimesAscend(s, 1);
    assert Map(TimeOf, a) == Map(TimeOf, b);
    OvertakenSignals.AscendingUnique(DayTimes(s, 1), Map(TimeOf, b));
    WindowsAt(Map(TimeOf, b), 0, 0);
  }

  lemma TwoAnswer(s: Setup, a: seq<Bar>, b: seq<Bar>)
    requires Two(s, a, b) && IsOpening(a) && IsOpening(b) && a[0].time == b[0].time
    ensures OvertakenSignals.AllAnswer(s, s.tickers, b[0].time)
    ensures OpeningVolume(a) >= 100.0 && a[0].high >= 10.78 ==>
              OvertakenSignals.IsCandidate(s, A(s), b[0].time)
    ensures OpeningVolume(b) >= 100.0 && b[0].high >= 10.78 ==>
              OvertakenSignals.IsCandidate(s, B(s), b[0].time)
  {
    OpeningIsCandidate(s, A(s), a);
    OpeningIsCandidate(s, B(s), b);
    TwoMembers(s);
  }

  lemma TwoMembers(s: Setup)
    requires |s.tickers| == 2
    ensures forall t :: t in s.tickers <==> t == A(s) || t == B(s)
  {
  }

  // ---- the two histories -------------------------------------------------------------------

  ghost predicate TwoHistories(s: Setup, s': Setup, a: seq<Bar>, a': seq<Bar>, b: seq<Bar>) {
    Two(s, a, b) && Two(s', a', b) && s' == s.(history := s'.history)
  }

  lemma SeenUntilThird(a: seq<Bar>, a': seq<Bar>, b: seq<Bar>)
    requires VolumeArrives(a, a', b)
    ensures Visible(a, b[1].time) == Visible(a', b[1].time)
  {
    SplitVisible(a, 2, b[1].time);
    SplitVisible(a', 2, b[1].time);
  }

  lemma SamePastUntilThird(s: Setup, s': Setup, a: seq<Bar>, a': seq<Bar>, b: seq<Bar>)
    requires VolumeArrives(a, a', b) && TwoHistories(s, s', a, a', b)
    ensures SamePast(s, s', 1, b[1].time)
  {
    SeenUntilThird(a, a', b);
    OpeningDay(s, A(s), a);
    OpeningDay(s', A(s), a');
    OpeningDay(s, B(s), b);
    OpeningDay(s', B(s), b);
    TwoMembers(s);
    forall ticker | ticker in s.tickers
      ensures SameUntil(BarsOf(s.history, ticker), BarsOf(s'.history, ticker), 1, b[1].time)
    {
      if ticker != A(s) {
        assert ticker == B(s);
      }
    }
  }

  lemma BothClean(s: Setup, a: seq<Bar>, b: seq<Bar>)
    requires Two(s, a, b) && IsOpening(a) && IsOpening(b)
    ensures CleanDays(s, 1)
  {
    OpeningDay(s, A(s), a);
    OpeningDay(s, B(s), b);
    TwoMembers(s);
  }

  lemma EntryOfB(s: Setup, a: seq<Bar>, b: seq<Bar>)
    requires Two(s, a, b) && IsOpening(b)
    ensures HasEntry(s, Signal(b[1].time, B(s), 2), 1)
  {
    OpeningDay(s, B(s), b);
  }

  /** What the tickers signal, without a window or in the first one. */
  lemma SignalsOfBoth(
    s: Setup, s': Setup, a: seq<Bar>, a': seq<Bar>, b: seq<Bar>, w: Option<Window>)
    requires VolumeArrives(a, a', b) && TwoHistories(s, s', a, a', b)
    requires w.Some? ==> w.value == Window(b[0].time, b[0].time + WINDOW_SECONDS)
    ensures SignalOf(s, A(s), 1, w) == Gives(None)
    ensures SignalOf(s, B(s), 1, w) == Gives(Some(Signal(b[1].time, B(s), 2)))
    ensures SignalOf(s', A(s), 1, w) == Gives(Some(Signal(b[0].time, A(s), 1)))
  {
    assert a'[0] == a'[..2][0] == a[0];
    assert b[0].time < b[1].time;
    TooQuiet(s, A(s), a, w);
    OpeningSignal(s, B(s), b, w, 1);
    OpeningSignal(s', A(s), a', w, 0);
  }

  /** B's signal is chosen where A has none. */
  lemma ChosenAlone(s: Setup, active: seq<string>, w: Option<Window>, signal: Signal)
    requires |s.tickers| == 2 && B(s) in active && forall t :: t in active ==> t == A(s) || t == B(s)
    requires SignalOf(s, A(s), 1, w) == Gives(None) && signal.ticker == B(s)
    requires SignalOf(s, B(s), 1, w) == Gives(Some(signal))
    ensures FirstSignal(s, active, 1, w) == Gives(Some(signal))
  {
    GatherRaises(SignalOn(s, 1, w), active);
    TextLeqTotal(signal.ticker, signal.ticker);
    ChosenIff(s, active, 1, w, signal);
  }

  lemma ChosenIsNotLater(
    s: Setup, active: seq<string>, w: Option<Window>, signal: Signal, ticker: string, other: Signal)
    requires FirstSignal(s, active, 1, w) == Gives(Some(signal))
    requires ticker in active && SignalOf(s, ticker, 1, w) == Gives(Some(other))
    ensures signal.time <= other.time
  {
    ChosenIsOwn(s, active, 1, w, signal);
  }

  /** No signal is chosen where an active ticker has an earlier one. */
  lemma NotChosen(
    s: Setup, active: seq<string>, w: Option<Window>, signal: Signal, ticker: string, other: Signal)
    requires ticker in active && SignalOf(s, ticker, 1, w) == Gives(Some(other))
    requires other.time < signal.time
    ensures FirstSignal(s, active, 1, w) != Gives(Some(signal))
  {
    if FirstSignal(s, active, 1, w) == Gives(Some(signal)) {
      ChosenIsNotLater(s, active, w, signal, ticker, other);
      assert false;
    }
  }

  lemma SomeChosen(s: Setup, active: seq<string>, w: Option<Window>, ticker: string)
    requires ticker in active && SignalOf(s, ticker, 1, w) != Gives(None)
    ensures FirstSignal(s, active, 1, w) != Gives(None)
  {
    FirstSignalNoneIff(s, active, 1, w);
  }

  /** A window with a signal decides the day if it is the first. */
  lemma FirstWindowDecides(s: Setup, mode: Mode)
    requires mode != Fixed && DayWindows(s, 1) != []
    requires SignalIn(s, mode, 1, DayWindows(s, 1)[0]) != Gives(None)
    ensures DaySignal(s, mode, 1) == SignalIn(s, mode, 1, DayWindows(s, 1)[0])
  {
    FirstFoundAt(SignalInWindow(s, mode, 1), DayWindows(s, 1), 0);
  }

  lemma ArrivedInWindow(
    s: Setup, s': Setup, mode: Mode, a: seq<Bar>, a': seq<Bar>, b: seq<Bar>)
    requires VolumeArrives(a, a', b) && TwoHistories(s, s', a, a', b) && mode != Fixed
    ensures DaySignal(s, mode, 1) == Gives(Some(Signal(b[1].time, B(s), 2)))
  {
    var w := Window(b[0].time, b[0].time + WINDOW_SECONDS);
    FirstWindow(s, a, b);
    TwoAnswer(s, a, b);
    TwoMembers(s);
    ActiveHolds(s, mode, w.start, B(s));
    ActiveKnown(s, mode, 1, w.start);
    SignalsOfBoth(s, s', a, a', b, Some(w));
    ChosenAlone(s, Active(s, mode, 1, w.start).value, Some(w), Signal(b[1].time, B(s), 2));
    FirstWindowDecides(s, mode);
  }

  lemma LostInWindow(
    s: Setup, s': Setup, mode: Mode, a: seq<Bar>, a': seq<Bar>, b: seq<Bar>)
    requires VolumeArrives(a, a', b) && TwoHistories(s, s', a, a', b) && mode != Fixed
    ensures DaySignal(s', mode, 1) != Gives(Some(Signal(b[1].time, B(s), 2)))
  {
    var w := Window(b[0].time, b[0].time + WINDOW_SECONDS);
    var signal, other := Signal(b[1].time, B(s), 2), Signal(b[0].time, A(s), 1);
    assert a'[0] == a'[..2][0] == a[0];
    FirstWindow(s', a', b);
    TwoAnswer(s', a', b);
    TwoMembers(s');
    ActiveHolds(s', mode, w.start, A(s));
    SignalsOfBoth(s, s', a, a', b, Some(w));
    NotChosen(s', Active(s', mode, 1, w.start).value, Some(w), signal, A(s), other);
    SomeChosen(s', Active(s', mode, 1, w.start).value, Some(w), A(s));
    FirstWindowDecides(s', mode);
  }

  lemma ArrivedFixed(s: Setup, s': Setup, a: seq<Bar>, a': seq<Bar>, b: seq<Bar>)
    requires VolumeArrives(a, a', b) && TwoHistories(s, s', a, a', b)
    ensures DaySignal(s, Fixed, 1) == Gives(Some(Signal(b[1].time, B(s), 2)))
    ensures DaySignal(s', Fixed, 1) != Gives(Some(Signal(b[1].time, B(s), 2)))
  {
    var signal, other := Signal(b[1].time, B(s), 2), Signal(b[0].time, A(s), 1);
    TwoMembers(s);
    SignalsOfBoth(s, s', a, a', b, None);
    ChosenAlone(s, s.tickers, None, signal);
    NotChosen(s', s'.tickers, None, signal, A(s), other);
  }

  lemma StillEnterable(s: Setup, s': Setup, mode: Mode, a: seq<Bar>, a': seq<Bar>, b: seq<Bar>)
    requires VolumeArrives(a, a', b) && TwoHistories(s, s', a, a', b)
    ensures Enterable(s', mode, 1, Signal(b[1].time, B(s), 2))
  {
    EntryOfB(s', a', b);
    OpeningDay(s', B(s), b);
    BarTimeIsListed(s', B(s), 1, 2);
  }

  /** A signal that volume to come takes away is not settled. */
  ghost predicate LostToVolume(s: Setup, s': Setup, mode: Mode, signal: Signal) {
    && SamePast(s, s', 1, signal.time) && CleanDays(s, 1) && CleanDays(s', 1)
    && Enterable(s', mode, 1, signal) && DaySignal(s, mode, 1) == Gives(Some(signal))
    && DaySignal(s', mode, 1) != Gives(Some(signal))
    && !SettledSignal(s, mode, 1, signal.time, signal)
  }

  /**
   * In every mode B's signal is the day's until the third bar of A, which triggered before with too
   * little volume, brings the volume that the opening filters ask for.
   */
  lemma VolumeOvertakes(
    s: Setup, s': Setup, mode: Mode, a: seq<Bar>, a': seq<Bar>, b: seq<Bar>)
    requires VolumeArrives(a, a', b) && TwoHistories(s, s', a, a', b)
    ensures LostToVolume(s, s', mode, Signal(b[1].time, B(s), 2))
  {
    SamePastUntilThird(s, s', a, a', b);
    BothClean(s, a, b);
    BothClean(s', a', b);
    StillEnterable(s, s', mode, a, a', b);
    if mode == Fixed {
      ArrivedFixed(s, s', a, a', b);
    } else {
      ArrivedInWindow(s, s', mode, a, a', b);
      LostInWindow(s, s', mode, a, a', b);
    }
  }

  // ---- one input ----------------------------------------------------------------------------

  const RULES := Rules(-0.1, 0.1, 0.05, 0.02, 0.0, 0.0)

  function Rising(first: real, second: real, early: real, late: real): seq<Bar> {
    [Bar(1, 0, 10.0, first, 10.0, 10.0, early), Bar(1, 300, 10.0, second, 10.0, 10.0, 0.0),
     Bar(1, 600, 10.0, 10.0, 10.0, 10.0, late)]
  }

  lemma RisingVolume(first: real, second: real, early: real, late: real)
    requires first > 0.0 && second > 0.0 && early >= 0.0 && late >= 0.0
    ensures var bars := Rising(first, second, early, late);
            IsOpening(bars) && OpeningVolume(bars) == early + late
  {
    var bars := Rising(first, second, early, late);
    assert FirstThree(bars) == bars;
    assert bars[1..][1..] == [bars[2]] && [bars[2]][1..] == [];
    assert SumBy(Volume, [bars[2]]) == late;
    assert SumBy(Volume, bars[1..]) == late;
  }

  lemma LostToThirdBar(mode: Mode) returns (s: Setup, s': Setup, signal: Signal)
    ensures LostToVolume(s, s', mode, signal)
  {
    var a, a' := Rising(11.0, 10.0, 0.0, 0.0), Rising(11.0, 10.0, 0.0, 100.0);
    var b := Rising(10.9, 11.0, 100.0, 0.0);
    RisingVolume(11.0, 10.0, 0.0, 0.0);
    RisingVolume(11.0, 10.0, 0.0, 100.0);
    RisingVolume(10.9, 11.0, 100.0, 0.0);
    s := Setup(["A", "B"], map["A" := [BUSY] + a, "B" := [BUSY] + b], FILTERS, 3, 3, RULES);
    s' := Setup(["A", "B"], map["A" := [BUSY] + a', "B" := [BUSY] + b], FILTERS, 3, 3, RULES);
    VolumeOvertakes(s, s', mode, a, a', b);
    signal := Signal(300, "B", 2);
  }
}
