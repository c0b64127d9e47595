/** When the bars seen at a checkpoint already settle whether a ticker is a candidate. */
module CandidateForesight {
  import opened CandidateSelection
  import opened Common
  import opened RealFacts
  import opened TradeSimulation

  predicate ValidBar(b: Bar) {
    b.open > 0.0 && b.high > 0.0 && b.low > 0.0 && b.close > 0.0 && b.volume >= 0.0
  }

  ghost predicate AllValid(bars: seq<Bar>) { forall b :: b in bars ==> ValidBar(b) }

  /** A cleaned history: valid bars, those of the day in time order. */
  ghost predicate Clean(bars: seq<Bar>, day: int) {
    AllValid(bars) && InTimeOrder(BarsForDay(bars, day))
  }

  /** The histories agree on all that has happened by the checkpoint. */
  ghost predicate SameUntil(a: seq<Bar>, b: seq<Bar>, day: int, checkpoint: int) {
    && Filter(Before(day), a) == Filter(Before(day), b)
    && Visible(BarsForDay(a, day), checkpoint) == Visible(BarsForDay(b, day), checkpoint)
  }

  /** Whatever happens after the checkpoint, the ticker's entry stays as it is. */
  ghost predicate Settled(a: seq<Bar>, ticker: string, day: int, checkpoint: int, f: Filters) {
    forall b :: Clean(b, day) && SameUntil(a, b, day, checkpoint) ==>
                  CandidateOf(b, ticker, day, checkpoint, f) == CandidateOf(a, ticker, day, checkpoint, f)
  }

  // ---- what can be told at the checkpoint ---------------------------------------------

  /** The opening filters other than the volume. */
  predicate PassesPrice(first: Bar, previous: seq<Bar>, f: Filters)
    requires previous != []
  {
    var close := previous[|previous| - 1].close;
    close > 0.0
    && var change := first.open / close - 1.0;
       f.minPrice <= first.open <= f.maxPrice && change >= f.minOpeningChange
       && change < f.maxOpeningGap
  }

  predicate BelowBreakout(visible: seq<Bar>, previous: seq<Bar>, f: Filters)
    requires visible != [] && previous != []
  {
    var breakout :=
      BreakoutPrice(visible[0].open, Highest(previous), Lowest(previous), f.breakoutK);
    breakout.Gives? && Highest(visible) < breakout.value * 0.98
  }

  function OpeningVolume(bars: seq<Bar>): real { SumBy(Volume, FirstThree(bars)) }

  /** Something seen so far excludes the ticker for good. */
  predicate RuledOut(visible: seq<Bar>, previous: seq<Bar>, f: Filters) {
    visible == [] || previous == [] || !PassesPrice(visible[0], previous, f)
    || BelowBreakout(visible, previous, f)
    || (OpeningVolume(previous) <= 0.0 && f.minVolumeRatio > 0.0)
  }

  /** The volume filter no longer depends on what comes. */
  predicate VolumeDecided(visible: seq<Bar>, previous: seq<Bar>, f: Filters) {
    |visible| >= 3
    || (|visible| == 2 && OpeningVolumeRatio(visible, previous) >= f.minVolumeRatio)
  }

  predicate KnownAt(visible: seq<Bar>, previous: seq<Bar>, f: Filters) {
    RuledOut(visible, previous, f) || VolumeDecided(visible, previous, f)
  }

  // ---- then nothing that comes matters ---------------------------------------------------

  lemma SeenIsPrefix(today: seq<Bar>, checkpoint: int)
    requires InTimeOrder(today)
    ensures var seen := Visible(today, checkpoint);
            |seen| <= |today| && today[..|seen|] == seen && (seen != [] ==> seen[0] == today[0])
  {
    VisibleIsPrefix(today, checkpoint);
  }

  lemma {:induction false} VolumeNonNegative(bars: seq<Bar>)
    requires AllValid(bars)
    ensures SumBy(Volume, bars) >= 0.0
  {
    if bars != [] {
      assert bars[0] in bars;
      VolumeNonNegative(bars[1..]);
    }
  }

  lemma FiltersSplit(today: seq<Bar>, previous: seq<Bar>, f: Filters)
    requires today != [] && previous != []
    ensures PassesOpeningFilters(today, previous, f)
            <==> PassesPrice(today[0], previous, f)
                 && OpeningVolumeRatio(today, previous) >= f.minVolumeRatio
  {
  }

  /** More bars never lower the opening volume. */
  lemma RatioGrows(seen: seq<Bar>, today: seq<Bar>, previous: seq<Bar>)
    requires AllValid(today) && |seen| <= |today| && today[..|seen|] == seen
    ensures OpeningVolumeRatio(today, previous) >= OpeningVolumeRatio(seen, previous)
    ensures |seen| >= 3 ==> OpeningVolumeRatio(today, previous) == OpeningVolumeRatio(seen, previous)
  {
    var rest := FirstThree(today)[Min(3, |seen|)..];
    assert FirstThree(today) == FirstThree(seen) + rest;
    SumByAppend(Volume, FirstThree(seen), rest);
    VolumeNonNegative(rest);
    if OpeningVolume(previous) > 0.0 {
      QuotientMonotone(OpeningVolume(seen), OpeningVolume(today), OpeningVolume(previous));
    }
  }

  /** The entry as a function of what is seen, once it is known. */
  function KnownEntry(
    seen: seq<Bar>, previous: seq<Bar>, ticker: string, checkpoint: int, f: Filters)
    : Outcome<Option<Candidate>>
  {
    if RuledOut(seen, previous, f) then Gives(None)
    else if OpeningVolumeRatio(seen, previous) >= f.minVolumeRatio then
      AgainstBreakout(
        seen[0].open, seen, previous, Score(seen, previous, checkpoint), ticker, f)
    else Gives(None)
  }

  lemma ScoreOfSeen(today: seq<Bar>, previous: seq<Bar>, checkpoint: int)
    requires InTimeOrder(today) && Visible(today, checkpoint) != []
    ensures var seen := Visible(today, checkpoint);
            Score(today, previous, checkpoint) == Score(seen, previous, checkpoint)
  {
    var seen := Visible(today, checkpoint);
    SeenIsPrefix(today, checkpoint);
    forall b | b in seen ensures Until(checkpoint)(b) {
    }
    FilterAll(Until(checkpoint), seen);
  }

  lemma RuledOutIsNone(
    today: seq<Bar>, previous: seq<Bar>, ticker: string, checkpoint: int, f: Filters)
    requires InTimeOrder(today) && RuledOut(Visible(today, checkpoint), previous, f)
    ensures CandidateFrom(today, previous, ticker, checkpoint, f) == Gives(None)
  {
    SeenIsPrefix(today, checkpoint);
    if today != [] && previous != [] {
      FiltersSplit(today, previous, f);
    }
  }

  lemma KnownIsEntry(
    today: seq<Bar>, previous: seq<Bar>, ticker: string, checkpoint: int, f: Filters)
    requires AllValid(today) && InTimeOrder(today)
    requires KnownAt(Visible(today, checkpoint), previous, f)
    ensures CandidateFrom(today, previous, ticker, checkpoint, f)
            == KnownEntry(Visible(today, checkpoint), previous, ticker, checkpoint, f)
  {
    var seen := Visible(today, checkpoint);
    if RuledOut(seen, previous, f) {
      RuledOutIsNone(today, previous, ticker, checkpoint, f);
    } else {
      SeenIsPrefix(today, checkpoint);
      ScoreOfSeen(today, previous, checkpoint);
      FiltersSplit(today, previous, f);
      if |seen| >= 3 {
        assert FirstThree(today) == FirstThree(seen);
      } else {
        assert today[..2] == seen;
        RatioGrows(seen, today, previous);
      }
    }
  }

  // ---- otherwise what comes decides --------------------------------------------------------

  /** What has happened by the checkpoint, continued by the given bars. */
  function Continued(a: seq<Bar>, day: int, checkpoint: int, extra: seq<Bar>): seq<Bar> {
    Filter(Before(day), a) + Visible(BarsForDay(a, day), checkpoint) + extra
  }

  ghost predicate ComesAfter(extra: seq<Bar>, day: int, checkpoint: int) {
    AllValid(extra) && InTimeOrder(extra) && forall b :: b in extra ==> b.day == day && b.time > checkpoint
  }

  lemma KeepFront(p: Bar -> bool, a: seq<Bar>, b: seq<Bar>)
    requires (forall x :: x in a ==> p(x)) && forall x :: x in b ==> !p(x)
    ensures Filter(p, a + b) == a
  {
    FilterAppend(p, a, b);
    FilterAll(p, a);
    FilterNone(p, b);
    assert a + [] == a;
  }

  lemma KeepBack(p: Bar -> bool, a: seq<Bar>, b: seq<Bar>)
    requires (forall x :: x in a ==> !p(x)) && forall x :: x in b ==> p(x)
    ensures Filter(p, a + b) == b
  {
    FilterAppend(p, a, b);
    FilterNone(p, a);
    FilterAll(p, b);
    assert [] + b == b;
  }

  lemma ContinuedParts(a: seq<Bar>, day: int, checkpoint: int, extra: seq<Bar>)
    requires ComesAfter(extra, day, checkpoint)
    ensures var b, seen := Continued(a, day, checkpoint, extra), Visible(BarsForDay(a, day), checkpoint);
            && Filter(Before(day), b) == Filter(Before(day), a)
            && BarsForDay(b, day) == seen + extra && Visible(seen + extra, checkpoint) == seen
  {
    var earlier, seen := Filter(Before(day), a), Visible(BarsForDay(a, day), checkpoint);
    assert Continued(a, day, checkpoint, extra) == earlier + (seen + extra);
    KeepFront(Before(day), earlier, seen + extra);
    KeepBack(OnDay(day), earlier, seen + extra);
    KeepFront(Until(checkpoint), seen, extra);
  }

  lemma OrderedThenAfter(today: seq<Bar>, day: int, checkpoint: int, extra: seq<Bar>)
    requires InTimeOrder(today) && ComesAfter(extra, day, checkpoint)
    ensures InTimeOrder(Visible(today, checkpoint) + extra)
  {
    var seen := Visible(today, checkpoint);
    SeenIsPrefix(today, checkpoint);
    forall i, j | 0 <= i < j < |seen + extra| ensures (seen + extra)[i].time <= (seen + extra)[j].time {
      if i < |seen| <= j {
        assert seen[i] in seen && extra[j - |seen|] in extra;
      }
    }
  }

  lemma ContinuedIsClean(a: seq<Bar>, day: int, checkpoint: int, extra: seq<Bar>)
    requires Clean(a, day) && ComesAfter(extra, day, checkpoint)
    ensures var b := Continued(a, day, checkpoint, extra);
            && Clean(b, day) && SameUntil(a, b, day, checkpoint)
            && PreviousDayBars(b, day) == PreviousDayBars(a, day)
  {
    var b, seen := Continued(a, day, checkpoint, extra), Visible(BarsForDay(a, day), checkpoint);
    ContinuedParts(a, day, checkpoint, extra);
    PreviousBarsOfEarlier(a, b, day);
    OrderedThenAfter(BarsForDay(a, day), day, checkpoint, extra);
  }

  lemma ContinuedEntry(
    a: seq<Bar>, ticker: string, day: int, checkpoint: int, f: Filters, extra: seq<Bar>)
    requires Clean(a, day) && ComesAfter(extra, day, checkpoint)
    requires Settled(a, ticker, day, checkpoint, f)
    ensures var seen := Visible(BarsForDay(a, day), checkpoint);
            CandidateOf(a, ticker, day, checkpoint, f)
            == CandidateFrom(seen + extra, PreviousDayBars(a, day), ticker, checkpoint, f)
  {
    ContinuedIsClean(a, day, checkpoint, extra);
    ContinuedParts(a, day, checkpoint, extra);
    assert CandidateOf(Continued(a, day, checkpoint, extra), ticker, day, checkpoint, f)
           == CandidateOf(a, ticker, day, checkpoint, f);
  }

  /** A later bar of flat price whose volume alone satisfies the filter. */
  function HeavyBar(day: int, checkpoint: int, previous: seq<Bar>, f: Filters): Bar {
    Bar(
      day, checkpoint + 1, 1.0, 1.0, 1.0, 1.0,
      MaxReal(0.0, Scaled(MaxReal(0.0, OpeningVolume(previous)), MaxReal(0.0, f.minVolumeRatio))))
  }

  lemma EnoughVolume(current: real, base: real, share: real)
    requires base > 0.0 && current >= Scaled(base, MaxReal(0.0, share))
    ensures current / base >= share
  {
    QuotientMonotone(Scaled(base, MaxReal(0.0, share)), current, base);
    QuotientCancels(base, MaxReal(0.0, share));
  }

  lemma HeavyBarPasses(seen: seq<Bar>, previous: seq<Bar>, day: int, checkpoint: int, f: Filters)
    requires AllValid(seen) && 1 <= |seen| <= 2 && previous != []
    requires !(OpeningVolume(previous) <= 0.0 && f.minVolumeRatio > 0.0)
    ensures OpeningVolumeRatio(seen + [HeavyBar(day, checkpoint, previous, f)], previous)
            >= f.minVolumeRatio
  {
    var heavy := HeavyBar(day, checkpoint, previous, f);
    var today := seen + [heavy];
    assert FirstThree(today) == today;
    SumByAppend(Volume, seen, [heavy]);
    assert [heavy][1..] == [];
    VolumeNonNegative(seen);
    if OpeningVolume(previous) > 0.0 {
      EnoughVolume(OpeningVolume(today), OpeningVolume(previous), f.minVolumeRatio);
    }
  }

  /** Without a further bar the ticker is out; with a heavy one it is not simply out. */
  lemma UnknownIsOpen(
    seen: seq<Bar>, previous: seq<Bar>, ticker: string, day: int, checkpoint: int, f: Filters)
    requires AllValid(seen) && InTimeOrder(seen) && Visible(seen, checkpoint) == seen
    requires !KnownAt(seen, previous, f)
    ensures CandidateFrom(seen, previous, ticker, checkpoint, f) == Gives(None)
    ensures var today := seen + [HeavyBar(day, checkpoint, previous, f)];
            Visible(today, checkpoint) == seen
            ==> CandidateFrom(today, previous, ticker, checkpoint, f) != Gives(None)
  {
    var today := seen + [HeavyBar(day, checkpoint, previous, f)];
    HeavyBarPasses(seen, previous, day, checkpoint, f);
    FiltersSplit(seen, previous, f);
    FiltersSplit(today, previous, f);
  }

  /**
   * Over cleaned histories, what is seen at the checkpoint settles the ticker's entry if and only
   * if it rules the ticker out or has decided the volume filter.
   */
  lemma SettledIffKnown(a: seq<Bar>, ticker: string, day: int, checkpoint: int, f: Filters)
    requires Clean(a, day)
    ensures Settled(a, ticker, day, checkpoint, f)
            <==> KnownAt(Visible(BarsForDay(a, day), checkpoint), PreviousDayBars(a, day), f)
  {
    var seen, previous := Visible(BarsForDay(a, day), checkpoint), PreviousDayBars(a, day);
    if KnownAt(seen, previous, f) {
      KnownIsEntry(BarsForDay(a, day), previous, ticker, checkpoint, f);
      forall b | Clean(b, day) && SameUntil(a, b, day, checkpoint)
        ensures CandidateOf(b, ticker, day, checkpoint, f) == CandidateOf(a, ticker, day, checkpoint, f)
      {
        PreviousBarsOfEarlier(a, b, day);
        KnownIsEntry(BarsForDay(b, day), previous, ticker, checkpoint, f);
      }
    } else if Settled(a, ticker, day, checkpoint, f) {
      var heavy := HeavyBar(day, checkpoint, previous, f);
      SeenIsPrefix(BarsForDay(a, day), checkpoint);
      ContinuedParts(a, day, checkpoint, []);
      ContinuedParts(a, day, checkpoint, [heavy]);
      assert seen + [] == seen;
      UnknownIsOpen(seen, previous, ticker, day, checkpoint, f);
      ContinuedEntry(a, ticker, day, checkpoint, f, []);
      ContinuedEntry(a, ticker, day, checkpoint, f, [heavy]);
      assert false;
    }
  }

  // ---- whole lists -------------------------------------------------------------------------

  /** Where every ticker is settled, no continuation changes the candidate list. */
  lemma SettledListIgnoresTheFuture(
    tickers: seq<string>, a: map<string, seq<Bar>>, b: map<string, seq<Bar>>, day: int,
    checkpoint: int, f: Filters)
    requires forall t :: t in tickers ==>
                           && Clean(BarsOf(b, t), day)
                           && SameUntil(BarsOf(a, t), BarsOf(b, t), day, checkpoint)
                           && Settled(BarsOf(a, t), t, day, checkpoint, f)
    ensures RefreshCandidates(tickers, a, day, checkpoint, f)
         == RefreshCandidates(tickers, b, day, checkpoint, f)
  {
    SettledCollected(tickers, a, b, day, checkpoint, f);
  }

  lemma {:induction false} SettledCollected(
    tickers: seq<string>, a: map<string, seq<Bar>>, b: map<string, seq<Bar>>, day: int,
    checkpoint: int, f: Filters)
    requires forall t :: t in tickers ==>
                           CandidateOf(BarsOf(b, t), t, day, checkpoint, f)
                           == CandidateOf(BarsOf(a, t), t, day, checkpoint, f)
    ensures Collected(tickers, a, day, checkpoint, f) == Collected(tickers, b, day, checkpoint, f)
  {
    if tickers != [] {
      assert tickers[|tickers| - 1] in tickers;
      SettledCollected(tickers[..|tickers| - 1], a, b, day, checkpoint, f);
    }
  }
}
