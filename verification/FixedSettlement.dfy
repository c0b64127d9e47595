/** When what has happened by a time settles the day's signal of the fixed mode, opening included. */
module FixedSettlement {
  import opened CandidateForesight
  import opened CandidateSelection
  import opened Common
  import opened DayForesight
  import opened DaySignals
  import opened SettledSignals
  import opened TradeSimulation

  // ---- what is seen ----------------------------------------------------------------------

  /** The first of the bars seen that reaches the breakout price, as a signal to be entered next. */
  ghost predicate SeenTrigger(
    seen: seq<Bar>, previous: seq<Bar>, ticker: string, f: Filters, other: Signal)
  {
    && seen != [] && previous != [] && Breakout(seen, previous, f).Gives?
    && 1 <= other.entry <= |seen|
    && other == Signal(seen[other.entry - 1].time, ticker, other.entry)
    && var breakout := Breakout(seen, previous, f).value;
       && Triggers(seen, other.entry - 1, breakout, None)
       && forall j :: 0 <= j < other.entry - 1 ==> !Triggers(seen, j, breakout, None)
  }

  ghost predicate TriggeredBy(s: Setup, ticker: string, day: int, t: int, other: Signal) {
    var bars := BarsOf(s.history, ticker);
    SeenTrigger(
      Visible(BarsForDay(bars, day), t), PreviousDayBars(bars, day), ticker, s.filters, other)
  }

  /** The day has a bar to enter on, and it passes the opening filters. */
  ghost predicate Takes(s: Setup, ticker: string, day: int, other: Signal) {
    var bars := BarsOf(s.history, ticker);
    && other.entry < |BarsForDay(bars, day)| && PreviousDayBars(bars, day) != []
    && PassesOpeningFilters(BarsForDay(bars, day), PreviousDayBars(bars, day), s.filters)
  }

  /** The price range of the previous day is upside down, so that no breakout price can be formed. */
  ghost predicate Broken(today: seq<Bar>, previous: seq<Bar>, f: Filters) {
    |today| >= 2 && previous != [] && Breakout(today, previous, f).Raises?
  }

  ghost predicate SomeBroken(s: Setup, day: int) {
    exists ticker :: ticker in s.tickers
                     && Broken(
                          BarsForDay(BarsOf(s.history, ticker), day),
                          PreviousDayBars(BarsOf(s.history, ticker), day), s.filters)
  }

  /** A signal by `t` is the first trigger seen by `t`, entered on, with the filters passed. */
  lemma EarlySignalIff(
    today: seq<Bar>, previous: seq<Bar>, ticker: string, f: Filters, t: int, other: Signal)
    requires InTimeOrder(today)
    ensures SignalFrom(today, previous, ticker, None, f) == Gives(Some(other)) && other.time <= t
            <==> SeenTrigger(Visible(today, t), previous, ticker, f, other)
                 && other.entry < |today| && PassesOpeningFilters(today, previous, f)
  {
    var seen := Visible(today, t);
    SeenPrefix(today, t);
    if SignalFrom(today, previous, ticker, None, f) == Gives(Some(other)) && other.time <= t {
      SignalTriggers(today, previous, ticker, None, f, other.entry - 1);
      SeenAlike(today, seen, previous, f, other.entry - 1);
    }
    if SeenTrigger(seen, previous, ticker, f, other) && other.entry < |today|
       && PassesOpeningFilters(today, previous, f) {
      SeenAlike(today, seen, previous, f, other.entry - 1);
      SignalTriggers(today, previous, ticker, None, f, other.entry - 1);
    }
  }

  lemma SeenAlike(today: seq<Bar>, seen: seq<Bar>, previous: seq<Bar>, f: Filters, i: nat)
    requires previous != [] && i < |seen| <= |today| && today[..|seen|] == seen
    ensures Breakout(today, previous, f) == Breakout(seen, previous, f)
    ensures Breakout(seen, previous, f).Gives? ==>
              forall j :: 0 <= j <= i ==>
                (Triggers(today, j, Breakout(today, previous, f).value, None)
                 <==> Triggers(seen, j, Breakout(seen, previous, f).value, None))
  {
    assert forall j :: 0 <= j <= i ==> today[j] == seen[j];
  }

  lemma TickerEarlyIff(s: Setup, ticker: string, day: int, t: int, other: Signal)
    requires Orderly(s, day) && ticker in s.tickers
    ensures SignalOf(s, ticker, day, None) == Gives(Some(other)) && other.time <= t
            <==> TriggeredBy(s, ticker, day, t, other) && Takes(s, ticker, day, other)
  {
    var bars := BarsOf(s.history, ticker);
    EarlySignalIff(BarsForDay(bars, day), PreviousDayBars(bars, day), ticker, s.filters, t, other);
  }

  lemma SamePastSameTriggers(s: Setup, s': Setup, ticker: string, day: int, t: int, other: Signal)
    requires SamePast(s, s', day, t) && ticker in s.tickers
    ensures TriggeredBy(s, ticker, day, t, other) <==> TriggeredBy(s', ticker, day, t, other)
  {
    PreviousBarsOfEarlier(BarsOf(s.history, ticker), BarsOf(s'.history, ticker), day);
  }

  // ---- from one history to another -----------------------------------------------------------

  /** Another trigger seen by `t`, before the signal, is entered on in the other history. */
  ghost predicate EarlierTaken(s: Setup, s': Setup, day: int, t: int, signal: Signal) {
    exists ticker, other :: ticker in s.tickers && TriggeredBy(s, ticker, day, t, other)
                            && !SignalLeq(signal, other) && Takes(s', ticker, day, other)
  }

  lemma OvertakesIffTaken(s: Setup, s': Setup, day: int, t: int, signal: Signal)
    requires SamePast(s, s', day, t) && Orderly(s', day) && signal.time <= t
    ensures Overtakes(s', s.tickers, day, None, signal) <==> EarlierTaken(s, s', day, t, signal)
  {
    if Overtakes(s', s.tickers, day, None, signal) {
      var ticker, other :| ticker in s.tickers && SignalOf(s', ticker, day, None) == Gives(Some(other))
                           && !SignalLeq(signal, other);
      TextLeqTotal(signal.ticker, other.ticker);
      TickerEarlyIff(s', ticker, day, t, other);
      SamePastSameTriggers(s, s', ticker, day, t, other);
    }
    if EarlierTaken(s, s', day, t, signal) {
      var ticker, other :| ticker in s.tickers && TriggeredBy(s, ticker, day, t, other)
                           && !SignalLeq(signal, other) && Takes(s', ticker, day, other);
      SamePastSameTriggers(s, s', ticker, day, t, other);
      TickerEarlyIff(s', ticker, day, t, other);
    }
  }

  lemma RaisesIffBroken(s: Setup, day: int)
    ensures DaySignal(s, Fixed, day).Raises? <==> SomeBroken(s, day)
  {
    var one := SignalOn(s, day, None);
    GatherRaises(one, s.tickers);
    assert forall ticker :: one(ticker) == SignalOf(s, ticker, day, None);
  }

  /**
   * In the fixed mode, over histories that agree on earlier days and up to a time not before its
   * trigger, and on nothing else, the signal stays the day's if and only if its ticker still takes
   * it, no trigger seen before it is taken, and no price range is upside down.
   */
  lemma FixedSignalStaysIff(s: Setup, s': Setup, day: int, t: int, signal: Signal)
    requires DaySignal(s, Fixed, day) == Gives(Some(signal)) && signal.time <= t
    requires SamePast(s, s', day, t) && Orderly(s, day) && Orderly(s', day)
    ensures DaySignal(s', Fixed, day) == Gives(Some(signal))
            <==> && Takes(s', signal.ticker, day, signal) && !EarlierTaken(s, s', day, t, signal)
                 && !SomeBroken(s', day)
  {
    ChosenIsOwn(s, s.tickers, day, None, signal);
    TickerEarlyIff(s, signal.ticker, day, t, signal);
    SamePastSameTriggers(s, s', signal.ticker, day, t, signal);
    TickerEarlyIff(s', signal.ticker, day, t, signal);
    OvertakesIffTaken(s, s', day, t, signal);
    RaisesIffBroken(s', day);
    if DaySignal(s', Fixed, day) == Gives(Some(signal)) {
      ChosenIsOwn(s', s.tickers, day, None, signal);
    } else if Takes(s', signal.ticker, day, signal) && !SomeBroken(s', day) {
      ChosenIff(s', s.tickers, day, None, signal);
    }
  }

  // ---- what can be told at the time -----------------------------------------------------------

  /** The bars seen pass the opening filters, or further bars can bring the volume that does. */
  predicate MayPass(seen: seq<Bar>, previous: seq<Bar>, f: Filters) {
    && seen != [] && previous != [] && PassesPrice(seen[0], previous, f)
    && if |seen| >= 3 then OpeningVolumeRatio(seen, previous) >= f.minVolumeRatio
       else OpeningVolume(previous) > 0.0 || f.minVolumeRatio <= 0.0
  }

  function SeenOf(s: Setup, ticker: string, day: int, t: int): seq<Bar> {
    Visible(BarsForDay(BarsOf(s.history, ticker), day), t)
  }

  function PreviousOf(s: Setup, ticker: string, day: int): seq<Bar> {
    PreviousDayBars(BarsOf(s.history, ticker), day)
  }

  /** The volume seen of the signal's ticker suffices already. */
  ghost predicate VolumeSeen(s: Setup, day: int, t: int, signal: Signal) {
    OpeningVolumeRatio(SeenOf(s, signal.ticker, day, t), PreviousOf(s, signal.ticker, day))
    >= s.filters.minVolumeRatio
  }

  /** Some ticker triggered before the signal and may still pass the opening filters. */
  ghost predicate EarlierMayPass(s: Setup, day: int, t: int, signal: Signal) {
    exists ticker, other :: ticker in s.tickers && TriggeredBy(s, ticker, day, t, other)
                            && !SignalLeq(signal, other)
                            && MayPass(SeenOf(s, ticker, day, t), PreviousOf(s, ticker, day), s.filters)
  }

  /** The highest price of some ticker's previous day lies below its lowest. */
  ghost predicate SomeUpsideDown(s: Setup, day: int) {
    exists ticker :: ticker in s.tickers && PreviousOf(s, ticker, day) != []
                     && Highest(PreviousOf(s, ticker, day)) < Lowest(PreviousOf(s, ticker, day))
  }

  lemma {:induction false} HighestPositive(bars: seq<Bar>)
    requires bars != [] && AllValid(bars)
    ensures Highest(bars) > 0.0 && Lowest(bars) > 0.0
  {
    assert bars[0] in bars;
    if |bars| > 1 {
      HighestPositive(bars[1..]);
    }
  }

  lemma BrokenIffUpsideDown(today: seq<Bar>, previous: seq<Bar>, f: Filters)
    requires AllValid(today) && AllValid(previous)
    ensures Broken(today, previous, f)
            <==> |today| >= 2 && previous != [] && Highest(previous) < Lowest(previous)
  {
    if |today| >= 2 && previous != [] {
      assert today[0] in today;
      HighestPositive(previous);
    }
  }

  /** Passing now means that the bars seen could pass. */
  lemma PassesMeansMay(today: seq<Bar>, previous: seq<Bar>, f: Filters, t: int)
    requires AllValid(today) && InTimeOrder(today) && Visible(today, t) != [] && previous != []
    requires PassesOpeningFilters(today, previous, f)
    ensures MayPass(Visible(today, t), previous, f)
  {
    SeenPrefix(today, t);
    FiltersSplit(today, previous, f);
    RatioGrows(Visible(today, t), today, previous);
  }

  /** The volume seen keeps a ticker that passes passing, whatever comes. */
  lemma SeenVolumeKeepsPassing(
    today: seq<Bar>, today': seq<Bar>, previous: seq<Bar>, f: Filters, t: int)
    requires AllValid(today') && InTimeOrder(today) && InTimeOrder(today')
    requires Visible(today, t) == Visible(today', t) != [] && previous != []
    requires PassesOpeningFilters(today, previous, f)
    requires OpeningVolumeRatio(Visible(today, t), previous) >= f.minVolumeRatio
    ensures PassesOpeningFilters(today', previous, f)
  {
    SeenPrefix(today, t);
    SeenPrefix(today', t);
    FiltersSplit(today, previous, f);
    FiltersSplit(today', previous, f);
    RatioGrows(Visible(today, t), today', previous);
  }

  // ---- then nothing that comes matters -----------------------------------------------------------

  ghost predicate KnownFixed(s: Setup, day: int, t: int, signal: Signal) {
    VolumeSeen(s, day, t, signal) && !EarlierMayPass(s, day, t, signal) && !SomeUpsideDown(s, day)
  }

  lemma PreviousIsValid(bars: seq<Bar>, day: int)
    requires AllValid(bars)
    ensures AllValid(PreviousDayBars(bars, day)) && AllValid(BarsForDay(bars, day))
  {
  }

  lemma SamePastSeen(s: Setup, s': Setup, ticker: string, day: int, t: int)
    requires SamePast(s, s', day, t) && ticker in s.tickers
    ensures SeenOf(s, ticker, day, t) == SeenOf(s', ticker, day, t)
    ensures PreviousOf(s, ticker, day) == PreviousOf(s', ticker, day)
  {
    PreviousBarsOfEarlier(BarsOf(s.history, ticker), BarsOf(s'.history, ticker), day);
  }

  lemma TakenMayPass(s: Setup, s': Setup, day: int, t: int, signal: Signal)
    requires SamePast(s, s', day, t) && CleanDays(s', day) && EarlierTaken(s, s', day, t, signal)
    ensures EarlierMayPass(s, day, t, signal)
  {
    var ticker, other :| ticker in s.tickers && TriggeredBy(s, ticker, day, t, other)
                         && !SignalLeq(signal, other) && Takes(s', ticker, day, other);
    var bars := BarsOf(s'.history, ticker);
    SamePastSeen(s, s', ticker, day, t);
    PreviousIsValid(bars, day);
    PassesMeansMay(BarsForDay(bars, day), PreviousDayBars(bars, day), s.filters, t);
  }

  lemma BrokenWasUpsideDown(s: Setup, s': Setup, day: int, t: int)
    requires SamePast(s, s', day, t) && CleanDays(s', day) && SomeBroken(s', day)
    ensures SomeUpsideDown(s, day)
  {
    var ticker :| ticker in s.tickers
                  && Broken(BarsForDay(BarsOf(s'.history, ticker), day), PreviousOf(s', ticker, day), s.filters);
    SamePastSeen(s, s', ticker, day, t);
    PreviousIsValid(BarsOf(s'.history, ticker), day);
    BrokenIffUpsideDown(
      BarsForDay(BarsOf(s'.history, ticker), day), PreviousOf(s', ticker, day), s.filters);
  }

  lemma KnownKeepsSignal(s: Setup, s': Setup, day: int, t: int, signal: Signal)
    requires DaySignal(s, Fixed, day) == Gives(Some(signal)) && signal.time <= t
    requires SamePast(s, s', day, t) && CleanDays(s, day) && CleanDays(s', day)
    requires KnownFixed(s, day, t, signal) && HasEntry(s', signal, day)
    ensures DaySignal(s', Fixed, day) == Gives(Some(signal))
  {
    var ticker := signal.ticker;
    var a, b := BarsOf(s.history, ticker), BarsOf(s'.history, ticker);
    ChosenIsOwn(s, s.tickers, day, None, signal);
    TickerEarlyIff(s, ticker, day, t, signal);
    SamePastSeen(s, s', ticker, day, t);
    PreviousIsValid(b, day);
    SeenVolumeKeepsPassing(
      BarsForDay(a, day), BarsForDay(b, day), PreviousDayBars(a, day), s.filters, t);
    if EarlierTaken(s, s', day, t, signal) {
      TakenMayPass(s, s', day, t, signal);
    }
    if SomeBroken(s', day) {
      BrokenWasUpsideDown(s, s', day, t);
    }
    FixedSignalStaysIff(s, s', day, t, signal);
  }

  // ---- and otherwise something does --------------------------------------------------------------

  /** The history where after `t` the ticker has exactly these bars. */
  function After(s: Setup, ticker: string, day: int, t: int, extra: seq<Bar>): Setup {
    s.(history := s.history[ticker := Continued(BarsOf(s.history, ticker), day, t, extra)])
  }

  lemma AfterAgrees(s: Setup, ticker: string, day: int, t: int, extra: seq<Bar>)
    requires CleanDays(s, day) && ticker in s.tickers && ComesAfter(extra, day, t)
    ensures var s' := After(s, ticker, day, t, extra);
            && SamePast(s, s', day, t) && CleanDays(s', day)
            && BarsForDay(BarsOf(s'.history, ticker), day) == SeenOf(s, ticker, day, t) + extra
            && PreviousOf(s', ticker, day) == PreviousOf(s, ticker, day)
  {
    var s' := After(s, ticker, day, t, extra);
    ContinuedIsClean(BarsOf(s.history, ticker), day, t, extra);
    ContinuedParts(BarsOf(s.history, ticker), day, t, extra);
    forall other | other in s.tickers
      ensures SameUntil(BarsOf(s.history, other), BarsOf(s'.history, other), day, t)
      ensures Clean(BarsOf(s'.history, other), day)
    {
      if other != ticker {
        OtherKept(s, ticker, day, t, extra, other);
      }
    }
  }

  lemma OtherKept(s: Setup, ticker: string, day: int, t: int, extra: seq<Bar>, other: string)
    requires other != ticker
    ensures BarsOf(After(s, ticker, day, t, extra).history, other) == BarsOf(s.history, other)
  {
  }

  lemma EntryKept(s: Setup, ticker: string, day: int, t: int, extra: seq<Bar>, signal: Signal)
    requires signal.ticker != ticker && HasEntry(s, signal, day)
    ensures HasEntry(After(s, ticker, day, t, extra), signal, day)
  {
    OtherKept(s, ticker, day, t, extra, signal.ticker);
  }

  function EmptyBar(day: int, time: int): Bar { Bar(day, time, 1.0, 1.0, 1.0, 1.0, 0.0) }

  /** The day's signal in a history is its ticker's own, and entered on. */
  lemma SignalIsSeen(s: Setup, day: int, t: int, signal: Signal)
    requires DaySignal(s, Fixed, day) == Gives(Some(signal)) && signal.time <= t && Orderly(s, day)
    ensures signal.ticker in s.tickers && TriggeredBy(s, signal.ticker, day, t, signal)
    ensures Takes(s, signal.ticker, day, signal)
  {
    ChosenIsOwn(s, s.tickers, day, None, signal);
    TickerEarlyIff(s, signal.ticker, day, t, signal);
  }

  lemma EmptyBarAddsNothing(seen: seq<Bar>, previous: seq<Bar>, day: int, time: int)
    requires |seen| < 3
    ensures OpeningVolumeRatio(seen + [EmptyBar(day, time)], previous)
         == OpeningVolumeRatio(seen, previous)
  {
    var empty := [EmptyBar(day, time)];
    assert FirstThree(seen + empty) == seen + empty && FirstThree(seen) == seen;
    SumByAppend(Volume, seen, empty);
    assert empty[1..] == [];
  }

  /** Too little volume seen: with an entry bar of no volume the signal's own ticker fails. */
  lemma LackingVolumeLoses(s: Setup, day: int, t: int, signal: Signal) returns (s': Setup)
    requires DaySignal(s, Fixed, day) == Gives(Some(signal)) && signal.time <= t
    requires CleanDays(s, day) && !VolumeSeen(s, day, t, signal)
    ensures SamePast(s, s', day, t) && CleanDays(s', day) && HasEntry(s', signal, day)
    ensures DaySignal(s', Fixed, day) != Gives(Some(signal))
  {
    var ticker := signal.ticker;
    var seen, previous := SeenOf(s, ticker, day, t), PreviousOf(s, ticker, day);
    SignalIsSeen(s, day, t, signal);
    SeenPrefix(BarsForDay(BarsOf(s.history, ticker), day), t);
    PreviousIsValid(BarsOf(s.history, ticker), day);
    RatioGrows(seen, BarsForDay(BarsOf(s.history, ticker), day), previous);
    assert |seen| < 3;
    var extra := [EmptyBar(day, t + 1)];
    s' := After(s, ticker, day, t, extra);
    AfterAgrees(s, ticker, day, t, extra);
    EmptyBarAddsNothing(seen, previous, day, t + 1);
    FixedSignalStaysIff(s, s', day, t, signal);
  }

  /** Some bar makes the filters pass that the bars seen may still pass. */
  lemma HeavyBarTakes(seen: seq<Bar>, previous: seq<Bar>, day: int, t: int, f: Filters)
    requires AllValid(seen) && MayPass(seen, previous, f)
    ensures PassesOpeningFilters(seen + [HeavyBar(day, t, previous, f)], previous, f)
  {
    var today := seen + [HeavyBar(day, t, previous, f)];
    assert today[..|seen|] == seen && today[0] == seen[0];
    FiltersSplit(today, previous, f);
    if |seen| >= 3 {
      RatioGrows(seen, today, previous);
    } else {
      HeavyBarPasses(seen, previous, day, t, f);
    }
  }

  /** A ticker has one first trigger. */
  lemma OneTrigger(s: Setup, ticker: string, day: int, t: int, a: Signal, b: Signal)
    requires TriggeredBy(s, ticker, day, t, a) && TriggeredBy(s, ticker, day, t, b)
    ensures a == b
  {
  }

  lemma TakerLoses(
    s: Setup, s': Setup, day: int, t: int, signal: Signal, ticker: string, other: Signal)
    requires DaySignal(s, Fixed, day) == Gives(Some(signal)) && signal.time <= t
    requires SamePast(s, s', day, t) && Orderly(s, day) && Orderly(s', day)
    requires ticker in s.tickers && TriggeredBy(s, ticker, day, t, other)
    requires !SignalLeq(signal, other) && Takes(s', ticker, day, other)
    ensures DaySignal(s', Fixed, day) != Gives(Some(signal))
  {
    FixedSignalStaysIff(s, s', day, t, signal);
  }

  /** With a heavy bar the ticker takes its trigger. */
  lemma HeavyBarIsTaken(s: Setup, ticker: string, day: int, t: int, other: Signal)
    requires CleanDays(s, day) && ticker in s.tickers && TriggeredBy(s, ticker, day, t, other)
    requires MayPass(SeenOf(s, ticker, day, t), PreviousOf(s, ticker, day), s.filters)
    ensures var extra := [HeavyBar(day, t, PreviousOf(s, ticker, day), s.filters)];
            && ComesAfter(extra, day, t) && Takes(After(s, ticker, day, t, extra), ticker, day, other)
  {
    var seen, previous := SeenOf(s, ticker, day, t), PreviousOf(s, ticker, day);
    var extra := [HeavyBar(day, t, previous, s.filters)];
    HeavyBarTakes(seen, previous, day, t, s.filters);
    AfterAgrees(s, ticker, day, t, extra);
  }

  /** A heavy bar for the ticker that triggered before takes the day. */
  lemma HeavyBarLoses(s: Setup, day: int, t: int, signal: Signal) returns (s': Setup)
    requires DaySignal(s, Fixed, day) == Gives(Some(signal)) && signal.time <= t
    requires CleanDays(s, day) && EarlierMayPass(s, day, t, signal)
    ensures SamePast(s, s', day, t) && CleanDays(s', day) && HasEntry(s', signal, day)
    ensures DaySignal(s', Fixed, day) != Gives(Some(signal))
  {
    var ticker, other :| ticker in s.tickers && TriggeredBy(s, ticker, day, t, other)
                         && !SignalLeq(signal, other)
                         && MayPass(SeenOf(s, ticker, day, t), PreviousOf(s, ticker, day), s.filters);
    SignalIsSeen(s, day, t, signal);
    assert ticker != signal.ticker by {
      TextLeqTotal(signal.ticker, signal.ticker);
      if ticker == signal.ticker {
        OneTrigger(s, ticker, day, t, signal, other);
      }
    }
    var extra := [HeavyBar(day, t, PreviousOf(s, ticker, day), s.filters)];
    s' := After(s, ticker, day, t, extra);
    HeavyBarIsTaken(s, ticker, day, t, other);
    AfterAgrees(s, ticker, day, t, extra);
    EntryKept(s, ticker, day, t, extra, signal);
    TakerLoses(s, s', day, t, signal, ticker, other);
  }

  lemma BrokenRaises(s: Setup, ticker: string, day: int)
    requires ticker in s.tickers && |BarsForDay(BarsOf(s.history, ticker), day)| >= 2
    requires PreviousOf(s, ticker, day) != []
    requires Highest(PreviousOf(s, ticker, day)) < Lowest(PreviousOf(s, ticker, day))
    ensures DaySignal(s, Fixed, day).Raises?
  {
    RaisesIffBroken(s, day);
  }

  lemma SignalIsUpright(s: Setup, day: int, t: int, signal: Signal)
    requires DaySignal(s, Fixed, day) == Gives(Some(signal)) && signal.time <= t && Orderly(s, day)
    ensures HasEntry(s, signal, day) && PreviousOf(s, signal.ticker, day) != []
    ensures Highest(PreviousOf(s, signal.ticker, day)) >= Lowest(PreviousOf(s, signal.ticker, day))
  {
    SignalIsSeen(s, day, t, signal);
  }

  function TwoBars(day: int, t: int): seq<Bar> { [EmptyBar(day, t + 1), EmptyBar(day, t + 1)] }

  lemma UpsideDownRaises(s: Setup, ticker: string, day: int, t: int) returns (s': Setup)
    requires CleanDays(s, day) && ticker in s.tickers && PreviousOf(s, ticker, day) != []
    requires Highest(PreviousOf(s, ticker, day)) < Lowest(PreviousOf(s, ticker, day))
    ensures s' == After(s, ticker, day, t, TwoBars(day, t))
    ensures SamePast(s, s', day, t) && CleanDays(s', day) && DaySignal(s', Fixed, day).Raises?
  {
    s' := After(s, ticker, day, t, TwoBars(day, t));
    AfterAgrees(s, ticker, day, t, TwoBars(day, t));
    BrokenRaises(s', ticker, day);
  }

  /** Two bars for a ticker whose range is upside down make the whole day raise. */
  lemma UpsideDownLoses(s: Setup, day: int, t: int, signal: Signal) returns (s': Setup)
    requires DaySignal(s, Fixed, day) == Gives(Some(signal)) && signal.time <= t
    requires CleanDays(s, day) && SomeUpsideDown(s, day)
    ensures SamePast(s, s', day, t) && CleanDays(s', day) && HasEntry(s', signal, day)
    ensures DaySignal(s', Fixed, day) != Gives(Some(signal))
  {
    var ticker :| ticker in s.tickers && PreviousOf(s, ticker, day) != []
                  && Highest(PreviousOf(s, ticker, day)) < Lowest(PreviousOf(s, ticker, day));
    SignalIsUpright(s, day, t, signal);
    s' := UpsideDownRaises(s, ticker, day, t);
    EntryKept(s, ticker, day, t, TwoBars(day, t), signal);
  }

  /**
   * In the fixed mode a signal is settled, opening included, if and only if its own ticker's volume
   * suffices already, no ticker that triggered before it may still pass the opening filters, and no
   * previous day's range is upside down.
   */
  lemma FixedSettledIff(s: Setup, day: int, t: int, signal: Signal)
    requires DaySignal(s, Fixed, day) == Gives(Some(signal)) && signal.time <= t
    requires CleanDays(s, day)
    ensures SettledSignal(s, Fixed, day, t, signal) <==> KnownFixed(s, day, t, signal)
  {
    if KnownFixed(s, day, t, signal) {
      forall s' | SamePast(s, s', day, t) && CleanDays(s', day) && Enterable(s', Fixed, day, signal)
        ensures DaySignal(s', Fixed, day) == Gives(Some(signal))
      {
        KnownKeepsSignal(s, s', day, t, signal);
      }
    } else {
      var s';
      if !VolumeSeen(s, day, t, signal) {
        s' := LackingVolumeLoses(s, day, t, signal);
      } else if EarlierMayPass(s, day, t, signal) {
        s' := HeavyBarLoses(s, day, t, signal);
      } else {
        s' := UpsideDownLoses(s, day, t, signal);
      }
      assert Enterable(s', Fixed, day, signal);
    }
  }
}
