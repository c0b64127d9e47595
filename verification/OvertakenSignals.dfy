/** Days whose signal is overtaken by one that could not be known when it triggered. */
module OvertakenSignals {
  import CandidateForesight
  import opened CandidateSelection
  import opened Common
  import opened DayForesight
  import opened DaySignals
  import SettledSignals
  import opened Sorting
  import opened TradeSimulation

  const FILTERS := Filters(1.0, 100.0, 0.0, 0.0, 0.5, 0.5, 3)
  const RULES := Rules(-0.1, 0.1, 0.05, 0.02, 0.0, 0.0)

  /** With this day before, and an opening price of 10, the breakout price is 11. */
  const YESTERDAY := Bar(0, 0, 10.0, 12.0, 10.0, 10.0, 0.0)

  function Peak(time: int, high: real): Bar { Bar(1, time, 10.0, high, 10.0, 10.0, 0.0) }

  function Flat(time: int): Bar { Peak(time, 10.0) }

  function A(s: Setup): string
    requires |s.tickers| == 2
  {
    s.tickers[0]
  }

  function B(s: Setup): string
    requires |s.tickers| == 2
  {
    s.tickers[1]
  }

  /** A run over two tickers with these days, under the filters above and any rules. */
  ghost predicate Two(s: Setup, a: seq<Bar>, b: seq<Bar>) {
    && |s.tickers| == 2 && A(s) != B(s) && s.filters == FILTERS
    && BarsOf(s.history, A(s)) == [YESTERDAY] + a && BarsOf(s.history, B(s)) == [YESTERDAY] + b
  }

  /** The two runs differ in their histories alone. */
  ghost predicate TwoHistories(s: Setup, s': Setup, a: seq<Bar>, a': seq<Bar>, b: seq<Bar>) {
    Two(s, a, b) && Two(s', a', b) && s' == s.(history := s'.history)
  }

  function TwoTickers(a: seq<Bar>, b: seq<Bar>): Setup {
    Setup(["A", "B"], map["A" := [YESTERDAY] + a, "B" := [YESTERDAY] + b], FILTERS, 3, 3, RULES)
  }

  lemma TwoTickersAreTwo(a: seq<Bar>, a': seq<Bar>, b: seq<Bar>)
    ensures TwoHistories(TwoTickers(a, b), TwoTickers(a', b), a, a', b)
  {
  }

  /** Bars of day 1, no two at one time. */
  ghost predicate IsToday(bars: seq<Bar>) {
    && (forall i, j :: 0 <= i < j < |bars| ==> bars[i].time < bars[j].time)
    && forall b :: b in bars ==> b.day == 1
  }

  lemma DaysSplit(today: seq<Bar>)
    requires IsToday(today)
    ensures Filter(Before(1), [YESTERDAY] + today) == [YESTERDAY]
    ensures BarsForDay([YESTERDAY] + today, 1) == today
    ensures PreviousDayBars([YESTERDAY] + today, 1) == [YESTERDAY]
  {
    DayAfter(YESTERDAY, today);
  }

  lemma DayAfter(y: Bar, today: seq<Bar>)
    requires y.day == 0 && IsToday(today)
    ensures Filter(Before(1), [y] + today) == [y]
    ensures BarsForDay([y] + today, 1) == today
    ensures PreviousDayBars([y] + today, 1) == [y]
  {
    CandidateForesight.KeepFront(Before(1), [y], today);
    CandidateForesight.KeepBack(OnDay(1), [y], today);
    CandidateForesight.KeepFront(Before(1), [y], []);
    assert [y] + [] == [y];
    PreviousBarsOfEarlier([y] + today, [y], 1);
    assert [y][1..] == [] && PreviousDay([], 1) == None;
    assert PreviousDay([y], 1) == Some(0);
    CandidateForesight.KeepFront(OnDay(0), [y], []);
  }

  /** Opening at 10 passes the filters, and a bar triggers if and only if it reaches 11. */
  lemma OpensAtTen(today: seq<Bar>)
    requires IsToday(today) && today != [] && today[0].open == 10.0
    ensures PassesOpeningFilters(today, [YESTERDAY], FILTERS)
    ensures BreakoutPrice(today[0].open, Highest([YESTERDAY]), Lowest([YESTERDAY]), FILTERS.breakoutK)
         == Gives(11.0)
  {
    assert FirstThree([YESTERDAY]) == [YESTERDAY] && [YESTERDAY][1..] == [];
    assert SumBy(Volume, []) == 0.0;
    assert SumBy(Volume, [YESTERDAY]) == 0.0;
  }

  /** The signal is the first bar with a following one that reaches 11 inside the window. */
  lemma SignalAt(s: Setup, ticker: string, today: seq<Bar>, w: Option<Window>, k: nat)
    requires IsToday(today) && today != [] && today[0].open == 10.0 && k + 1 < |today|
    requires s.filters == FILTERS && BarsOf(s.history, ticker) == [YESTERDAY] + today
    requires Triggers(today, k, 11.0, w) && forall j :: 0 <= j < k ==> !Triggers(today, j, 11.0, w)
    ensures SignalOf(s, ticker, 1, w) == Gives(Some(Signal(today[k].time, ticker, k + 1)))
  {
    DaysSplit(today);
    OpensAtTen(today);
    TriggerIs(today, 11.0, w, k);
  }

  lemma NoSignal(s: Setup, ticker: string, today: seq<Bar>, w: Option<Window>)
    requires IsToday(today) && |today| > 1 && today[0].open == 10.0
    requires s.filters == FILTERS && BarsOf(s.history, ticker) == [YESTERDAY] + today
    requires forall j :: 0 <= j < |today| - 1 ==> !Triggers(today, j, 11.0, w)
    ensures SignalOf(s, ticker, 1, w) == Gives(None)
  {
    DaysSplit(today);
    OpensAtTen(today);
  }

  lemma TwoMembers(s: Setup, a: seq<Bar>, b: seq<Bar>)
    requires Two(s, a, b)
    ensures forall t :: t in s.tickers <==> t == A(s) || t == B(s)
  {
  }

  lemma SameTwoTickers(s: Setup, s': Setup, a: seq<Bar>, a': seq<Bar>, b: seq<Bar>, t: int)
    requires TwoHistories(s, s', a, a', b) && IsToday(a) && IsToday(a') && IsToday(b)
    requires SameDayUntil(a, a', t)
    ensures SameHistory(s, s', 1, t)
  {
    DaysSplit(a);
    DaysSplit(a');
    DaysSplit(b);
    TwoMembers(s, a, b);
  }

  lemma EntryOfB(s: Setup, a: seq<Bar>, b: seq<Bar>, signal: Signal)
    requires Two(s, a, b) && IsToday(b) && signal.ticker == B(s) && signal.entry < |b|
    ensures HasEntry(s, signal, 1)
  {
    DaysSplit(b);
  }

  /** The signal is the day's in the one history and not in the other, which agrees up to it. */
  ghost predicate IsOvertaken(s: Setup, s': Setup, mode: Mode, signal: Signal) {
    && SameHistory(s, s', 1, signal.time) && HasEntry(s', signal, 1)
    && DaySignal(s, mode, 1) == Gives(Some(signal)) && DaySignal(s', mode, 1) != Gives(Some(signal))
  }

  // ---- the fixed mode --------------------------------------------------------------------

  ghost predicate FirstAbove(bars: seq<Bar>, k: nat) {
    k < |bars| && bars[k].high >= 11.0 && forall j :: 0 <= j < k ==> bars[j].high < 11.0
  }

  /** A breaks out on its last bar, of three or more; B breaks out later, and trades on. */
  ghost predicate BreaksOutTooLate(a: seq<Bar>, b: seq<Bar>, k: nat, extra: Bar) {
    && IsToday(a) && IsToday(b) && IsToday(a + [extra]) && |a| >= 3
    && a[0].open == 10.0 && b != [] && b[0].open == 10.0
    && FirstAbove(a, |a| - 1) && FirstAbove(b, k) && k + 1 < |b|
    && a[|a| - 1].time < b[k].time < extra.time
  }

  lemma FixedDays(a: seq<Bar>, b: seq<Bar>, k: nat, extra: Bar)
    requires BreaksOutTooLate(a, b, k, extra)
    ensures SameDayUntil(a, a + [extra], b[k].time)
  {
    SettledSignals.SplitVisible(a, |a|, b[k].time);
    assert a[..|a|] == a == (a + [extra])[..|a|];
    SettledSignals.SplitVisible(a + [extra], |a|, b[k].time);
    assert FirstThree(a) == FirstThree(a + [extra]);
  }

  lemma OnlySignal(s: Setup, signal: Signal)
    requires |s.tickers| == 2 && forall t :: t in s.tickers <==> t == A(s) || t == B(s)
    requires signal.ticker == B(s) && SignalOf(s, B(s), 1, None) == Gives(Some(signal))
    requires SignalOf(s, A(s), 1, None) == Gives(None)
    ensures DaySignal(s, Fixed, 1) == Gives(Some(signal))
  {
    GatherRaises(SignalOn(s, 1, None), s.tickers);
    TextLeqTotal(B(s), B(s));
    ChosenIff(s, s.tickers, 1, None, signal);
  }

  /**
   * In the fixed mode B's signal is the day's until A, which broke out earlier but on its last bar so
   * far, trades once more after B's trigger.
   */
  lemma LaterBarOvertakes(
    s: Setup, s': Setup, a: seq<Bar>, b: seq<Bar>, k: nat, extra: Bar)
    requires BreaksOutTooLate(a, b, k, extra) && TwoHistories(s, s', a, a + [extra], b)
    ensures IsOvertaken(s, s', Fixed, Signal(b[k].time, B(s), k + 1))
  {
    var signal := Signal(b[k].time, B(s), k + 1);
    FixedDays(a, b, k, extra);
    SameTwoTickers(s, s', a, a + [extra], b, signal.time);
    NoneBeforeLast(s, A(s), a);
    SignalAbove(s, B(s), b, k);
    ExtraSignals(s', A(s), a, extra);
    TwoMembers(s, a, b);
    OnlySignal(s, signal);
    LaterSignalOvertakes(s, s', signal, Signal(a[|a| - 1].time, A(s), |a|));
    EntryOfB(s', a + [extra], b, signal);
  }

  /** One more bar, and the last bar that reached 11 is a signal. */
  lemma ExtraSignals(s: Setup, ticker: string, a: seq<Bar>, extra: Bar)
    requires IsToday(a + [extra]) && a != [] && FirstAbove(a, |a| - 1) && a[0].open == 10.0
    requires s.filters == FILTERS && BarsOf(s.history, ticker) == [YESTERDAY] + (a + [extra])
    ensures SignalOf(s, ticker, 1, None) == Gives(Some(Signal(a[|a| - 1].time, ticker, |a|)))
  {
    SignalAbove(s, ticker, a + [extra], |a| - 1);
  }

  lemma NoneBeforeLast(s: Setup, ticker: string, today: seq<Bar>)
    requires IsToday(today) && |today| > 1 && FirstAbove(today, |today| - 1) && today[0].open == 10.0
    requires s.filters == FILTERS && BarsOf(s.history, ticker) == [YESTERDAY] + today
    ensures SignalOf(s, ticker, 1, None) == Gives(None)
  {
    NoSignal(s, ticker, today, None);
  }

  lemma SignalAbove(s: Setup, ticker: string, today: seq<Bar>, k: nat)
    requires IsToday(today) && FirstAbove(today, k) && k + 1 < |today| && today[0].open == 10.0
    requires s.filters == FILTERS && BarsOf(s.history, ticker) == [YESTERDAY] + today
    ensures SignalOf(s, ticker, 1, None) == Gives(Some(Signal(today[k].time, ticker, k + 1)))
  {
    SignalAt(s, ticker, today, None, k);
  }

  lemma LaterSignalOvertakes(s: Setup, s': Setup, signal: Signal, other: Signal)
    requires |s.tickers| == 2 && SameHistory(s, s', 1, signal.time)
    requires DaySignal(s, Fixed, 1) == Gives(Some(signal)) && other.time < signal.time
    requires SignalOf(s, A(s), 1, None) == Gives(None)
    requires SignalOf(s', A(s), 1, None) == Gives(Some(other))
    ensures DaySignal(s', Fixed, 1) != Gives(Some(signal))
  {
    TickerPending(s, s', A(s), 1, None, signal.time, other);
    assert Overtaken(s, s', s.tickers, 1, None, signal.time, signal);
    FixedSignalIgnoresTheFutureIff(s, s', 1, signal.time, signal);
  }

  lemma SomeDayBreaksOutTooLate() returns (a: seq<Bar>, b: seq<Bar>, extra: Bar)
    ensures BreaksOutTooLate(a, b, 1, extra)
  {
    a, b := [Flat(0), Flat(300), Peak(600, 11.0)], [Flat(0), Peak(900, 11.0), Flat(1200)];
    extra := Flat(1200);
  }

  // ---- the refresh mode ------------------------------------------------------------------

  lemma {:induction false} AscendingUnique(u: seq<int>, v: seq<int>)
    requires Ascending(u) && Ascending(v) && forall x :: x in u <==> x in v
    ensures u == v
  {
    assert (u == [] || u[0] in u) && (v == [] || v[0] in v);
    if u != [] {
      assert u[0] == v[0];
      assert forall x :: x in u[1..] <==> x in u && x != u[0];
      assert forall x :: x in v[1..] <==> x in v && x != v[0];
      AscendingUnique(u[1..], v[1..]);
      assert u == [u[0]] + u[1..] && v == [v[0]] + v[1..];
    }
  }

  /** Days opening at 10, the bars of the one at the times of the first bars of the other. */
  ghost predicate Aligned(a: seq<Bar>, b: seq<Bar>) {
    && IsToday(a) && IsToday(b) && 3 <= |a| <= |b| && |b| > 5
    && a[0].open == 10.0 && b[0].open == 10.0
    && forall i :: 0 <= i < |a| ==> a[i].time == b[i].time
  }

  /** The last bar of a day triggers nothing. */
  ghost predicate NeverReaches(bars: seq<Bar>) {
    forall i :: 0 <= i < |bars| - 1 ==> bars[i].high < 11.0
  }

  /** A comes near its breakout with its first bar, B only with its fourth, which reaches it. */
  ghost predicate OneNear(a: seq<Bar>, b: seq<Bar>) {
    && Aligned(a, b) && NeverReaches(a)
    && a[0].high >= 10.78 && b[0].high < 10.78 && FirstAbove(b, 3)
  }

  /**
   * In one history A never reaches its breakout; in the other it does, a bar later than B, with its
   * first window still open.
   */
  ghost predicate BreaksOutInOldWindow(a: seq<Bar>, a': seq<Bar>, b: seq<Bar>) {
    && OneNear(a, b) && Aligned(a', b) && |a| == |a'| == |b| && a[..4] == a'[..4]
    && FirstAbove(a', 4) && b[4].time < b[0].time + WINDOW_SECONDS
  }

  /** A breaks out in its first window on its third and last bar so far, before B does. */
  ghost predicate BreaksOutOnLastBar(a: seq<Bar>, b: seq<Bar>, extra: Bar) {
    && OneNear(a, b) && |a| == 3 && FirstAbove(a, 2) && IsToday(a + [extra])
    && a[2].time < a[0].time + WINDOW_SECONDS && extra.time > b[3].time
  }

  lemma TimesOfTwo(s: Setup, a: seq<Bar>, b: seq<Bar>)
    requires Two(s, a, b) && Aligned(a, b)
    ensures DayTimes(s, 1) == Map(TimeOf, b)
  {
    DaysSplit(a);
    DaysSplit(b);
    AllTimesOfTwo(s, a, b);
    DayTimesAscend(s, 1);
    TimesOfLonger(a, b);
    AscendingUnique(DayTimes(s, 1), Map(TimeOf, b));
  }

  lemma AllTimesOfTwo(s: Setup, a: seq<Bar>, b: seq<Bar>)
    requires |s.tickers| == 2
    requires BarsForDay(BarsOf(s.history, A(s)), 1) == a
    requires BarsForDay(BarsOf(s.history, B(s)), 1) == b
    ensures AllTimes(s, s.tickers, 1) == Map(TimeOf, a) + Map(TimeOf, b)
  {
    AllTimesStep(s, [], A(s), a);
    AllTimesStep(s, [A(s)], B(s), b);
    assert [] + [A(s)] == [A(s)] && s.tickers == [A(s)] + [B(s)];
    assert [] + Map(TimeOf, a) == Map(TimeOf, a);
  }

  lemma AllTimesStep(s: Setup, front: seq<string>, last: string, today: seq<Bar>)
    requires BarsForDay(BarsOf(s.history, last), 1) == today
    ensures AllTimes(s, front + [last], 1) == AllTimes(s, front, 1) + Map(TimeOf, today)
  {
    assert (front + [last])[..|front|] == front;
  }

  lemma TimesOfLonger(a: seq<Bar>, b: seq<Bar>)
    requires Aligned(a, b)
    ensures Ascending(Map(TimeOf, b))
    ensures forall x :: x in Map(TimeOf, a) + Map(TimeOf, b) <==> x in Map(TimeOf, b)
  {
    assert Map(TimeOf, a) == Map(TimeOf, b)[..|a|];
  }

  lemma WindowsOfDay(s: Setup, a: seq<Bar>, b: seq<Bar>)
    requires Two(s, a, b) && Aligned(a, b)
    ensures var windows := DayWindows(s, 1);
            && |windows| >= 2 && windows[0] == Window(b[0].time, b[0].time + WINDOW_SECONDS)
            && windows[1] == Window(b[3].time, b[3].time + WINDOW_SECONDS)
  {
    TimesOfTwo(s, a, b);
    FirstWindows(Map(TimeOf, b));
    assert Map(TimeOf, b)[0] == b[0].time && Map(TimeOf, b)[3] == b[3].time;
  }

  lemma FirstWindows(times: seq<int>)
    requires |times| > 5
    ensures var windows := WindowsFrom(times, 0);
            && |windows| >= 2 && windows[0] == Window(times[0], times[0] + WINDOW_SECONDS)
            && windows[1] == Window(times[3], times[3] + WINDOW_SECONDS)
  {
    WindowsAt(times, 0, 0);
    WindowsAt(times, 0, 1);
  }

  /** At a checkpoint a ticker is a candidate if and only if it has come near its breakout. */
  lemma CandidateNear(s: Setup, ticker: string, today: seq<Bar>, n: nat, start: int)
    requires IsToday(today) && 1 < |today| && today[0].open == 10.0 && 0 < n <= |today|
    requires s.filters == FILTERS && BarsOf(s.history, ticker) == [YESTERDAY] + today
    requires Visible(today, start) == today[..n]
    ensures var c := CandidateOf(BarsOf(s.history, ticker), ticker, 1, start, FILTERS);
            && c.Gives? && (c.value.Some? ==> c.value.value.ticker == ticker)
            && (IsCandidate(s, ticker, start) <==> Highest(today[..n]) >= 10.78)
  {
    DaysSplit(today);
    OpensAtTen(today);
  }

  lemma {:induction false} HighestReaches(bars: seq<Bar>, i: nat)
    requires i < |bars|
    ensures Highest(bars) >= bars[i].high
  {
    if i > 0 {
      HighestReaches(bars[1..], i - 1);
    }
  }

  ghost predicate IsCandidate(s: Setup, ticker: string, start: int) {
    var c := CandidateOf(BarsOf(s.history, ticker), ticker, 1, start, s.filters);
    c.Gives? && c.value.Some?
  }

  /** No ticker raises at the checkpoint. */
  ghost predicate AllAnswer(s: Setup, tickers: seq<string>, start: int) {
    forall t :: t in tickers ==>
                  var c := CandidateOf(BarsOf(s.history, t), t, 1, start, s.filters);
                  c.Gives? && (c.value.Some? ==> c.value.value.ticker == t)
  }

  lemma {:induction false} CollectedHolds(s: Setup, tickers: seq<string>, start: int)
    requires AllAnswer(s, tickers, start)
    ensures var r := Collected(tickers, s.history, 1, start, s.filters);
            && r.Gives? && |r.value| <= |tickers|
            && forall t :: (exists c :: c in r.value && c.ticker == t)
                           <==> t in tickers && IsCandidate(s, t, start)
  {
    if tickers != [] {
      var front, last := tickers[..|tickers| - 1], tickers[|tickers| - 1];
      assert tickers == front + [last];
      CollectedHolds(s, front, start);
      var before := Collected(front, s.history, 1, start, s.filters).value;
      var r := Collected(tickers, s.history, 1, start, s.filters);
      assert r == Gives(
                    if IsCandidate(s, last, start)
                    then before + [CandidateOf(BarsOf(s.history, last), last, 1, start, s.filters).value.value]
                    else before);
    }
  }

  /** With room for all, the refreshed list holds the tickers that are candidates. */
  lemma RefreshedHolds(s: Setup, start: int)
    requires AllAnswer(s, s.tickers, start) && s.filters.refreshLimit >= |s.tickers|
    ensures Active(s, Refresh, 1, start).Gives?
    ensures forall t :: t in Active(s, Refresh, 1, start).value
                        <==> t in s.tickers && IsCandidate(s, t, start)
  {
    CollectedHolds(s, s.tickers, start);
    RankedHolds(Collected(s.tickers, s.history, 1, start, s.filters).value, s.filters.refreshLimit);
  }

  lemma RankedHolds(candidates: seq<Candidate>, limit: nat)
    requires |candidates| <= limit
    ensures forall t :: t in Ranked(candidates, limit)
                        <==> exists c :: c in candidates && c.ticker == t
  {
    var sorted := Sort(CandidateLeq, candidates);
    RankedTakesTheBest(candidates, limit);
    PermutationMembers(sorted, candidates);
    forall c | c in candidates ensures c.ticker in Ranked(candidates, limit) {
      var i :| 0 <= i < |sorted| && sorted[i] == c;
      assert Ranked(candidates, limit)[i] == c.ticker;
    }
    forall t | t in Ranked(candidates, limit) ensures exists c :: c in candidates && c.ticker == t {
      var i :| 0 <= i < |Ranked(candidates, limit)| && Ranked(candidates, limit)[i] == t;
      assert sorted[i] in candidates;
    }
  }

  lemma FirstAndFourth(bars: seq<Bar>, bars': seq<Bar>)
    requires Aligned(bars, bars')
    ensures Visible(bars, bars'[0].time) == bars[..1]
    ensures Visible(bars, bars'[3].time) == bars[..Min(4, |bars|)]
    ensures |bars| > 4 ==> HasLater(bars, bars'[3].time)
  {
    SettledSignals.SplitVisible(bars, 1, bars'[0].time);
    if |bars| == 3 {
      assert bars[2].time == bars'[2].time;
    }
    SettledSignals.SplitVisible(bars, Min(4, |bars|), bars'[3].time);
  }

  lemma SameUntilFourth(a: seq<Bar>, a': seq<Bar>, b: seq<Bar>)
    requires Aligned(a, b) && Aligned(a', b) && |a| > 4 && |a'| > 4 && a[..4] == a'[..4]
    ensures SameDayUntil(a, a', b[3].time)
  {
    FirstAndFourth(a, b);
    FirstAndFourth(a', b);
    assert FirstThree(a) == a[..4][..3] && FirstThree(a') == a'[..4][..3];
  }

  lemma TwoAnswer(s: Setup, a: seq<Bar>, b: seq<Bar>, na: nat, nb: nat, start: int)
    requires Two(s, a, b) && Aligned(a, b) && 0 < na <= |a| && 0 < nb <= |b|
    requires Visible(a, start) == a[..na] && Visible(b, start) == b[..nb]
    ensures AllAnswer(s, s.tickers, start)
    ensures IsCandidate(s, A(s), start) <==> Highest(a[..na]) >= 10.78
    ensures IsCandidate(s, B(s), start) <==> Highest(b[..nb]) >= 10.78
  {
    CandidateNear(s, A(s), a, na, start);
    CandidateNear(s, B(s), b, nb, start);
    TwoMembers(s, a, b);
  }

  lemma ActiveAt(s: Setup, a: seq<Bar>, b: seq<Bar>, na: nat, nb: nat, start: int)
    requires Two(s, a, b) && Aligned(a, b) && 0 < na <= |a| && 0 < nb <= |b|
    requires Visible(a, start) == a[..na] && Visible(b, start) == b[..nb]
    ensures Active(s, Refresh, 1, start).Gives?
    ensures var active := Active(s, Refresh, 1, start).value;
            && Known(s, active) && (A(s) in active <==> Highest(a[..na]) >= 10.78)
            && (B(s) in active <==> Highest(b[..nb]) >= 10.78)
  {
    TwoAnswer(s, a, b, na, nb, start);
    RefreshedHolds(s, start);
  }

  /** Where A has no signal, the first signal is B's, if B is active and has one. */
  lemma FirstAmong(s: Setup, active: seq<string>, w: Window)
    requires |s.tickers| == 2 && forall t :: t in active ==> t == A(s) || t == B(s)
    requires SignalOf(s, A(s), 1, Some(w)) == Gives(None)
    requires B(s) in active ==> SignalOf(s, B(s), 1, Some(w)).Gives?
    ensures FirstSignal(s, active, 1, Some(w))
         == if B(s) in active then SignalOf(s, B(s), 1, Some(w)) else Gives(None)
  {
    var one := SignalOn(s, 1, Some(w));
    GatherRaises(one, active);
    var found := FirstSignal(s, active, 1, Some(w));
    if found.value.Some? {
      ChosenIsOwn(s, active, 1, Some(w), found.value.value);
    } else if B(s) in active && SignalOf(s, B(s), 1, Some(w)).value.Some? {
      GatherHolds(one, active, B(s), SignalOf(s, B(s), 1, Some(w)).value.value);
      OrderedHead(Gather(one, active).value);
      assert false;
    }
  }

  /** The first window considers A alone, which does not trigger. */
  lemma FirstWindowQuiet(a: seq<Bar>, b: seq<Bar>, s: Setup, w: Window)
    requires OneNear(a, b) && Two(s, a, b) && w.start == b[0].time
    ensures Active(s, Refresh, 1, w.start).Gives? && A(s) in Active(s, Refresh, 1, w.start).value
    ensures SignalIn(s, Refresh, 1, w) == Gives(None)
  {
    FirstAndFourth(a, b);
    FirstAndFourth(b, b);
    ActiveAt(s, a, b, 1, 1, w.start);
    TwoMembers(s, a, b);
    NoSignal(s, A(s), a, Some(w));
    FirstAmong(s, Active(s, Refresh, 1, w.start).value, w);
  }

  /** The second window considers B too, which triggers at once. */
  lemma SecondWindowFinds(a: seq<Bar>, b: seq<Bar>, s: Setup, w: Window)
    requires OneNear(a, b) && Two(s, a, b)
    requires w.start == b[3].time < w.end
    ensures SignalIn(s, Refresh, 1, w) == Gives(Some(Signal(b[3].time, B(s), 4)))
  {
    FirstAndFourth(a, b);
    FirstAndFourth(b, b);
    HighestReaches(b[..4], 3);
    ActiveAt(s, a, b, Min(4, |a|), 4, w.start);
    TwoMembers(s, a, b);
    NoSignal(s, A(s), a, Some(w));
    SignalAt(s, B(s), b, Some(w), 3);
    FirstAmong(s, Active(s, Refresh, 1, w.start).value, w);
  }

  /** B's signal is found in the second window, A considered in vain in the first. */
  ghost predicate FoundSecond(s: Setup, b: seq<Bar>) {
    && |s.tickers| == 2 && |b| > 5 && |DayWindows(s, 1)| >= 2
    && DayWindows(s, 1)[0] == Window(b[0].time, b[0].time + WINDOW_SECONDS)
    && DayWindows(s, 1)[0].start <= b[3].time
    && Active(s, Refresh, 1, DayWindows(s, 1)[0].start).Gives?
    && A(s) in Active(s, Refresh, 1, DayWindows(s, 1)[0].start).value
    && SignalIn(s, Refresh, 1, DayWindows(s, 1)[0]) == Gives(None)
    && SignalIn(s, Refresh, 1, DayWindows(s, 1)[1]) == Gives(Some(Signal(b[3].time, B(s), 4)))
  }

  lemma SecondWindowFound(s: Setup, a: seq<Bar>, b: seq<Bar>)
    requires OneNear(a, b) && Two(s, a, b)
    ensures FoundSecond(s, b)
  {
    WindowsOfDay(s, a, b);
    FirstWindowQuiet(a, b, s, DayWindows(s, 1)[0]);
    SecondWindowFinds(a, b, s, DayWindows(s, 1)[1]);
  }

  /** A's signal in the first window takes the day from that of the second. */
  lemma FirstWindowOvertakes(s: Setup, s': Setup, b: seq<Bar>, other: Signal)
    requires FoundSecond(s, b) && SameHistory(s, s', 1, b[3].time)
    requires SignalOf(s', A(s), 1, Some(DayWindows(s, 1)[0])) == Gives(Some(other))
    ensures var signal := Signal(b[3].time, B(s), 4);
            && DaySignal(s, Refresh, 1) == Gives(Some(signal))
            && DaySignal(s', Refresh, 1) != Gives(Some(signal))
  {
    var windows, signal := DayWindows(s, 1), Signal(b[3].time, B(s), 4);
    ScanFinds(s, Refresh, 1, windows, 1, signal);
    SignalDisturbs(s, s', windows[0], b[3].time, A(s), other);
    if DaySignal(s', Refresh, 1) == Gives(Some(signal)) {
      KeptSignalWasUndisturbed(s, s', Refresh, 1, b[3].time, 1, signal);
      assert false;
    }
  }

  lemma SignalDisturbs(
    s: Setup, s': Setup, w: Window, t: int, ticker: string, other: Signal)
    requires SameHistory(s, s', 1, t) && w.start <= t && SignalIn(s, Refresh, 1, w) == Gives(None)
    requires ticker in Active(s, Refresh, 1, w.start).value
    requires SignalOf(s', ticker, 1, Some(w)) == Gives(Some(other))
    ensures Disturbed(s, s', Refresh, 1, w, t)
  {
    SameActive(s, s', Refresh, 1, w.start, t);
    FirstSignalNoneIff(s', Active(s, Refresh, 1, w.start).value, 1, Some(w));
    QuietWindowStaysIff(s, s', Refresh, 1, w, t);
  }

  /**
   * In the refresh mode B's signal, found in the second window, is the day's until A triggers in the
   * first one, which is still open, a bar later.
   */
  lemma OldWindowOvertakes(s: Setup, s': Setup, a: seq<Bar>, a': seq<Bar>, b: seq<Bar>)
    requires BreaksOutInOldWindow(a, a', b) && TwoHistories(s, s', a, a', b)
    ensures IsOvertaken(s, s', Refresh, Signal(b[3].time, B(s), 4))
  {
    SameUntilFourth(a, a', b);
    SameTwoTickers(s, s', a, a', b, b[3].time);
    SignalAt(s', A(s), a', Some(Window(b[0].time, b[0].time + WINDOW_SECONDS)), 4);
    SecondWindowFound(s, a, b);
    FirstWindowOvertakes(s, s', b, Signal(a'[4].time, A(s), 5));
    EntryOfB(s', a', b, Signal(b[3].time, B(s), 4));
  }

  lemma LastBarDays(a: seq<Bar>, b: seq<Bar>, extra: Bar)
    requires BreaksOutOnLastBar(a, b, extra)
    ensures SameDayUntil(a, a + [extra], b[3].time)
  {
    FirstAndFourth(a, b);
    assert a[..3] == a == (a + [extra])[..3];
    assert a[2].time == b[2].time;
    SettledSignals.SplitVisible(a + [extra], 3, b[3].time);
  }

  /**
   * So it is until A, which reached its breakout in the first window but on its last bar so far,
   * trades once more, at any later time.
   */
  lemma LastBarOvertakes(s: Setup, s': Setup, a: seq<Bar>, b: seq<Bar>, extra: Bar)
    requires BreaksOutOnLastBar(a, b, extra) && TwoHistories(s, s', a, a + [extra], b)
    ensures IsOvertaken(s, s', Refresh, Signal(b[3].time, B(s), 4))
  {
    var w := Window(b[0].time, b[0].time + WINDOW_SECONDS);
    LastBarDays(a, b, extra);
    SameTwoTickers(s, s', a, a + [extra], b, b[3].time);
    LastBarSignal(s', a, b, extra, w);
    SecondWindowFound(s, a, b);
    FirstWindowOvertakes(s, s', b, Signal(a[2].time, A(s), 3));
    EntryOfB(s', a + [extra], b, Signal(b[3].time, B(s), 4));
  }

  lemma LastBarSignal(s: Setup, a: seq<Bar>, b: seq<Bar>, extra: Bar, w: Window)
    requires BreaksOutOnLastBar(a, b, extra) && Two(s, a + [extra], b)
    requires w == Window(b[0].time, b[0].time + WINDOW_SECONDS)
    ensures SignalOf(s, A(s), 1, Some(w)) == Gives(Some(Signal(a[2].time, A(s), 3)))
  {
    assert a[2].time == b[2].time && b[0].time <= b[2].time;
    SignalAt(s, A(s), a + [extra], Some(w), 2);
  }

  /** Six bars a minute apart, with the highs of the first, fourth and fifth. */
  function Minutes(first: real, fourth: real, fifth: real): seq<Bar> {
    [Peak(0, first), Flat(60), Flat(120), Peak(180, fourth), Peak(240, fifth), Flat(300)]
  }

  lemma MinutesAligned(first: real, fourth: real, fifth: real)
    ensures IsToday(Minutes(first, fourth, fifth))
  {
  }

  lemma MinutesNear(fifth: real)
    requires fifth <= 11.0
    ensures Aligned(Minutes(10.9, 10.0, fifth), Minutes(10.0, 11.0, 10.0))
    ensures fifth < 11.0 ==> OneNear(Minutes(10.9, 10.0, fifth), Minutes(10.0, 11.0, 10.0))
  {
    MinutesAligned(10.9, 10.0, fifth);
    MinutesAligned(10.0, 11.0, 10.0);
  }

  lemma SomeDayBreaksOutInOldWindow() returns (a: seq<Bar>, a': seq<Bar>, b: seq<Bar>)
    ensures BreaksOutInOldWindow(a, a', b)
  {
    MinutesNear(10.0);
    MinutesNear(11.0);
    a, a', b := Minutes(10.9, 10.0, 10.0), Minutes(10.9, 10.0, 11.0), Minutes(10.0, 11.0, 10.0);
  }

  lemma SomeDayBreaksOutOnLastBar() returns (a: seq<Bar>, b: seq<Bar>, extra: Bar)
    ensures BreaksOutOnLastBar(a, b, extra)
  {
    MinutesAligned(10.0, 11.0, 10.0);
    a, b := [Peak(0, 10.9), Flat(60), Peak(120, 11.0)], Minutes(10.0, 11.0, 10.0);
    extra := Flat(240);
  }

  // ---- one input each ---------------------------------------------------------------------

  lemma OvertakenInFixedMode() returns (s: Setup, s': Setup, signal: Signal)
    ensures IsOvertaken(s, s', Fixed, signal)
  {
    var a, b, extra := SomeDayBreaksOutTooLate();
    TwoTickersAreTwo(a, a + [extra], b);
    s, s' := TwoTickers(a, b), TwoTickers(a + [extra], b);
    LaterBarOvertakes(s, s', a, b, 1, extra);
    signal := Signal(b[1].time, B(s), 2);
  }

  lemma OvertakenInOldWindow() returns (s: Setup, s': Setup, signal: Signal)
    ensures IsOvertaken(s, s', Refresh, signal)
  {
    var a, a', b := SomeDayBreaksOutInOldWindow();
    TwoTickersAreTwo(a, a', b);
    s, s' := TwoTickers(a, b), TwoTickers(a', b);
    OldWindowOvertakes(s, s', a, a', b);
    signal := Signal(b[3].time, B(s), 4);
  }

  lemma OvertakenOnLastBar() returns (s: Setup, s': Setup, signal: Signal)
    ensures IsOvertaken(s, s', Refresh, signal)
  {
    var a, b, extra := SomeDayBreaksOutOnLastBar();
    TwoTickersAreTwo(a, a + [extra], b);
    s, s' := TwoTickers(a, b), TwoTickers(a + [extra], b);
    LastBarOvertakes(s, s', a, b, extra);
    signal := Signal(b[3].time, B(s), 4);
  }
}
