/** Which tickers the intraday backtest considers at a checkpoint, and what they may depend on. */
module CandidateSelection {
  import opened Common
  import opened Sorting
  import opened TradeSimulation

  datatype Filters = Filters(
    minPrice: real, maxPrice: real, minOpeningChange: real, minVolumeRatio: real,
    maxOpeningGap: real, breakoutK: real, refreshLimit: int)

  /** A step that can raise a value error. */
  datatype Outcome<+T> = Raises | Gives(value: T)

  // ---- bars of a day and of the day before --------------------------------------

  function OnDay(day: int): Bar -> bool { (b: Bar) => b.day == day }

  function BarsForDay(bars: seq<Bar>, day: int): seq<Bar> { Filter(OnDay(day), bars) }

  /** The latest day before `day` that has a bar. */
  function PreviousDay(bars: seq<Bar>, day: int): Option<int> {
    if bars == [] then None
    else
      var rest := PreviousDay(bars[1..], day);
      if bars[0].day >= day then rest
      else Some(if rest.Some? then Max(bars[0].day, rest.value) else bars[0].day)
  }

  function PreviousDayBars(bars: seq<Bar>, day: int): seq<Bar> {
    match PreviousDay(bars, day)
    case None => []
    case Some(previous) => BarsForDay(bars, previous)
  }

  // ---- opening filters ----------------------------------------------------------

  function Volume(b: Bar): real { b.volume }

  function FirstThree(bars: seq<Bar>): seq<Bar> { bars[..Min(3, |bars|)] }

  function Ratio(current: real, previous: real): real {
    if previous <= 0.0 then 0.0 else current / previous
  }

  function OpeningVolumeRatio(bars: seq<Bar>, previous: seq<Bar>): real {
    Ratio(SumBy(Volume, FirstThree(bars)), SumBy(Volume, FirstThree(previous)))
  }

  predicate PassesOpeningFilters(bars: seq<Bar>, previous: seq<Bar>, f: Filters)
    requires bars != [] && previous != []
  {
    var open, close := bars[0].open, previous[|previous| - 1].close;
    close > 0.0
    && var change := open / close - 1.0;
       f.minPrice <= open <= f.maxPrice && change >= f.minOpeningChange
       && OpeningVolumeRatio(bars, previous) >= f.minVolumeRatio && change < f.maxOpeningGap
  }

  function Highest(bars: seq<Bar>): real
    requires bars != []
  {
    if |bars| == 1 then bars[0].high else MaxReal(bars[0].high, Highest(bars[1..]))
  }

  function Lowest(bars: seq<Bar>): real
    requires bars != []
  {
    if |bars| == 1 then bars[0].low else MinReal(bars[0].low, Lowest(bars[1..]))
  }

  function BreakoutPrice(open: real, high: real, low: real, k: real): Outcome<real> {
    if open <= 0.0 || high <= 0.0 || low <= 0.0 || high < low then Raises
    else Gives(open + (high - low) * k)
  }

  // ---- the candidate list at a checkpoint -----------------------------------------

  function Until(checkpoint: int): Bar -> bool { (b: Bar) => b.time <= checkpoint }

  function Visible(bars: seq<Bar>, checkpoint: int): seq<Bar> { Filter(Until(checkpoint), bars) }

  function VisibleVolumeRatio(visible: seq<Bar>, previous: seq<Bar>): real {
    var count := Max(1, |visible|);
    Ratio(SumBy(Volume, visible), SumBy(Volume, previous[..Min(count, |previous|)]))
  }

  function Score(bars: seq<Bar>, previous: seq<Bar>, checkpoint: int): real
    requires bars != []
  {
    var visible := Visible(bars, checkpoint);
    if visible == [] || bars[0].open <= 0.0 then 0.0
    else
      (visible[|visible| - 1].close / bars[0].open - 1.0) * 100.0
        + VisibleVolumeRatio(visible, previous)
  }

  datatype Candidate = Candidate(score: real, ticker: string)

  function BarsOf(history: map<string, seq<Bar>>, ticker: string): seq<Bar> {
    if ticker in history then history[ticker] else []
  }

  /** What bars that pass the filters lead to: a broken price range raises. */
  function AgainstBreakout(
    open: real, visible: seq<Bar>, previous: seq<Bar>, score: real, ticker: string, f: Filters)
    : Outcome<Option<Candidate>>
    requires visible != [] && previous != []
  {
    match BreakoutPrice(open, Highest(previous), Lowest(previous), f.breakoutK)
    case Raises => Raises
    case Gives(breakout) =>
      if Highest(visible) < breakout * 0.98 then Gives(None) else Gives(Some(Candidate(score, ticker)))
  }

  function CandidateFrom(
    today: seq<Bar>, previous: seq<Bar>, ticker: string, checkpoint: int, f: Filters)
    : Outcome<Option<Candidate>>
  {
    if |today| < 2 || previous == [] || !PassesOpeningFilters(today, previous, f) then Gives(None)
    else
      var visible := Visible(today, checkpoint);
      if visible == [] then Gives(None)
      else
        AgainstBreakout(
          today[0].open, visible, previous, Score(today, previous, checkpoint), ticker, f)
  }

  /** The ticker's entry at the checkpoint, if it makes the list. */
  function CandidateOf(bars: seq<Bar>, ticker: string, day: int, checkpoint: int, f: Filters)
    : Outcome<Option<Candidate>>
  {
    CandidateFrom(BarsForDay(bars, day), PreviousDayBars(bars, day), ticker, checkpoint, f)
  }

  function Collected(
    tickers: seq<string>, history: map<string, seq<Bar>>, day: int, checkpoint: int, f: Filters)
    : Outcome<seq<Candidate>>
  {
    if tickers == [] then Gives([])
    else
      var ticker := tickers[|tickers| - 1];
      match Collected(tickers[..|tickers| - 1], history, day, checkpoint, f)
      case Raises => Raises
      case Gives(front) =>
        match CandidateOf(BarsOf(history, ticker), ticker, day, checkpoint, f)
        case Raises => Raises
        case Gives(None) => Gives(front)
        case Gives(Some(c)) => Gives(front + [c])
  }

  /** Higher scores first, then by ticker. */
  predicate CandidateLeq(a: Candidate, b: Candidate) {
    a.score > b.score || (a.score == b.score && TextLeq(a.ticker, b.ticker))
  }

  function TickerOf(c: Candidate): string { c.ticker }

  function Ranked(candidates: seq<Candidate>, limit: int): seq<string> {
    var sorted := Map(TickerOf, Sort(CandidateLeq, candidates));
    sorted[..Min(Max(0, limit), |sorted|)]
  }

  function RefreshCandidates(
    tickers: seq<string>, history: map<string, seq<Bar>>, day: int, checkpoint: int, f: Filters)
    : Outcome<seq<string>>
  {
    match Collected(tickers, history, day, checkpoint, f)
    case Raises => Raises
    case Gives(candidates) => Gives(Ranked(candidates, f.refreshLimit))
  }

  method CandidateFor(bars: seq<Bar>, ticker: string, day: int, checkpoint: int, f: Filters)
    returns (result: Outcome<Option<Candidate>>)
    ensures result == CandidateOf(bars, ticker, day, checkpoint, f)
  {
    var today, previous := BarsForDay(bars, day), PreviousDayBars(bars, day);
    if |today| < 2 || previous == [] || !PassesOpeningFilters(today, previous, f) {
      return Gives(None);
    }
    var visible := Visible(today, checkpoint);
    if visible == [] {
      return Gives(None);
    }
    var breakout := BreakoutPrice(today[0].open, Highest(previous), Lowest(previous), f.breakoutK);
    if breakout.Raises? {
      return Raises;
    }
    if Highest(visible) < breakout.value * 0.98 {
      return Gives(None);
    }
    result := Gives(Some(Candidate(Score(today, previous, checkpoint), ticker)));
  }

  method RefreshCandidateTickersAt(
    tickers: seq<string>, history: map<string, seq<Bar>>, day: int, checkpoint: int, f: Filters)
    returns (result: Outcome<seq<string>>)
    ensures result == RefreshCandidates(tickers, history, day, checkpoint, f)
  {
    var candidates := [];
    for i := 0 to |tickers|
      invariant Collected(tickers[..i], history, day, checkpoint, f) == Gives(candidates)
    {
      var mine := CandidateFor(BarsOf(history, tickers[i]), tickers[i], day, checkpoint, f);
      CollectedStep(tickers, i, history, day, checkpoint, f, mine);
      if mine.Raises? {
        CollectedRaises(tickers, i + 1, history, day, checkpoint, f);
        return Raises;
      }
      if mine.value.Some? {
        candidates := candidates + [mine.value.value];
      }
    }
    assert tickers[..|tickers|] == tickers;
    result := Gives(Ranked(candidates, f.refreshLimit));
  }

  lemma CollectedStep(
    tickers: seq<string>, i: nat, history: map<string, seq<Bar>>, day: int, checkpoint: int,
    f: Filters, mine: Outcome<Option<Candidate>>)
    requires i < |tickers| && Collected(tickers[..i], history, day, checkpoint, f).Gives?
    requires mine == CandidateOf(BarsOf(history, tickers[i]), tickers[i], day, checkpoint, f)
    ensures var front := Collected(tickers[..i], history, day, checkpoint, f);
            Collected(tickers[..i + 1], history, day, checkpoint, f)
            == if mine.Raises? then Raises
               else if mine.value.None? then front
               else Gives(front.value + [mine.value.value])
  {
    assert tickers[..i + 1][..i] == tickers[..i];
  }

  lemma {:induction false} CollectedRaises(
    tickers: seq<string>, i: nat, history: map<string, seq<Bar>>, day: int, checkpoint: int,
    f: Filters)
    requires i <= |tickers| && Collected(tickers[..i], history, day, checkpoint, f).Raises?
    ensures Collected(tickers, history, day, checkpoint, f).Raises?
    decreases |tickers| - i
  {
    if i == |tickers| {
      assert tickers[..i] == tickers;
    } else {
      assert tickers[..i + 1][..i] == tickers[..i];
      CollectedRaises(tickers, i + 1, history, day, checkpoint, f);
    }
  }

  // ---- the list is ordered and within its limit -----------------------------------

  lemma CandidateOrderTotal()
    ensures Total(CandidateLeq)
  {
    forall a, b ensures CandidateLeq(a, b) || CandidateLeq(b, a) { TextLeqTotal(a.ticker, b.ticker); }
    forall a, b, c | CandidateLeq(a, b) && CandidateLeq(b, c) ensures CandidateLeq(a, c) {
      if a.score == b.score == c.score { TextLeqTransitive(a.ticker, b.ticker, c.ticker); }
    }
  }

  /** The list takes the best-ranked candidates: none left out ranks before one taken. */
  lemma RankedTakesTheBest(candidates: seq<Candidate>, limit: int)
    ensures var sorted := Sort(CandidateLeq, candidates);
            && multiset(sorted) == multiset(candidates)
            && |Ranked(candidates, limit)| == Min(Max(0, limit), |candidates|)
            && (forall i :: 0 <= i < |Ranked(candidates, limit)| ==>
                  Ranked(candidates, limit)[i] == sorted[i].ticker)
            && (forall i, j :: 0 <= i < |Ranked(candidates, limit)| <= j < |sorted| ==>
                  CandidateLeq(sorted[i], sorted[j]))
  {
    CandidateOrderTotal();
    SortSorts(CandidateLeq, candidates);
  }

  // ---- no look-ahead -------------------------------------------------------------

  function Before(day: int): Bar -> bool { (b: Bar) => b.day < day }

  /** The two histories of a ticker agree on everything the checkpoint may look at. */
  ghost predicate SameView(a: seq<Bar>, b: seq<Bar>, day: int, checkpoint: int) {
    && Filter(Before(day), a) == Filter(Before(day), b)
    && FirstThree(BarsForDay(a, day)) == FirstThree(BarsForDay(b, day))
    && Visible(BarsForDay(a, day), checkpoint) == Visible(BarsForDay(b, day), checkpoint)
  }

  lemma {:induction false} PreviousDayOfEarlier(bars: seq<Bar>, day: int)
    ensures PreviousDay(bars, day) == PreviousDay(Filter(Before(day), bars), day)
    ensures PreviousDay(bars, day).Some? ==> PreviousDay(bars, day).value < day
  {
    if bars != [] {
      PreviousDayOfEarlier(bars[1..], day);
      var rest := Filter(Before(day), bars[1..]);
      assert bars[0].day < day ==> Filter(Before(day), bars)[1..] == rest;
    }
  }

  lemma {:induction false} DayOfEarlier(bars: seq<Bar>, day: int, earlier: int)
    requires earlier < day
    ensures BarsForDay(bars, earlier) == BarsForDay(Filter(Before(day), bars), earlier)
  {
    if bars != [] {
      DayOfEarlier(bars[1..], day, earlier);
      var rest := Filter(Before(day), bars[1..]);
      assert bars[0].day < day ==> Filter(Before(day), bars)[1..] == rest;
    }
  }

  lemma PreviousBarsOfEarlier(a: seq<Bar>, b: seq<Bar>, day: int)
    requires Filter(Before(day), a) == Filter(Before(day), b)
    ensures PreviousDayBars(a, day) == PreviousDayBars(b, day)
  {
    PreviousDayOfEarlier(a, day);
    PreviousDayOfEarlier(b, day);
    var previous := PreviousDay(a, day);
    if previous.Some? {
      DayOfEarlier(a, day, previous.value);
      DayOfEarlier(b, day, previous.value);
    }
  }

  lemma SameOpening(left: seq<Bar>, right: seq<Bar>, previous: seq<Bar>, f: Filters)
    requires FirstThree(left) == FirstThree(right) && previous != []
    ensures |left| >= 2 <==> |right| >= 2
    ensures |left| >= 2 ==> left[0] == right[0]
    ensures |left| >= 2 ==>
              (PassesOpeningFilters(left, previous, f) <==> PassesOpeningFilters(right, previous, f))
  {
  }

  lemma SameScore(left: seq<Bar>, right: seq<Bar>, previous: seq<Bar>, checkpoint: int)
    requires left != [] && right != [] && left[0] == right[0]
    requires Visible(left, checkpoint) == Visible(right, checkpoint)
    ensures Score(left, previous, checkpoint) == Score(right, previous, checkpoint)
  {
  }

  lemma SameViewSameCandidate(
    a: seq<Bar>, b: seq<Bar>, ticker: string, day: int, checkpoint: int, f: Filters)
    requires SameView(a, b, day, checkpoint)
    ensures CandidateOf(a, ticker, day, checkpoint, f) == CandidateOf(b, ticker, day, checkpoint, f)
  {
    PreviousBarsOfEarlier(a, b, day);
    var left, right, previous := BarsForDay(a, day), BarsForDay(b, day), PreviousDayBars(a, day);
    if previous != [] {
      SameOpening(left, right, previous, f);
      if |left| >= 2 {
        SameScore(left, right, previous, checkpoint);
      }
    }
  }

  lemma {:induction false} SameViewSameCollected(
    tickers: seq<string>, a: map<string, seq<Bar>>, b: map<string, seq<Bar>>, day: int,
    checkpoint: int, f: Filters)
    requires forall t :: t in tickers ==> SameView(BarsOf(a, t), BarsOf(b, t), day, checkpoint)
    ensures Collected(tickers, a, day, checkpoint, f) == Collected(tickers, b, day, checkpoint, f)
  {
    if tickers != [] {
      var last := tickers[|tickers| - 1];
      SameViewSameCollected(tickers[..|tickers| - 1], a, b, day, checkpoint, f);
      assert last in tickers;
      SameViewSameCandidate(BarsOf(a, last), BarsOf(b, last), last, day, checkpoint, f);
    }
  }

  /**
   * Two histories that agree, ticker by ticker, on earlier days, on the day's first three bars and
   * on the bars up to the checkpoint give the same candidate list.
   */
  lemma CandidatesIgnoreTheFuture(
    tickers: seq<string>, a: map<string, seq<Bar>>, b: map<string, seq<Bar>>, day: int,
    checkpoint: int, f: Filters)
    requires forall t :: t in tickers ==> SameView(BarsOf(a, t), BarsOf(b, t), day, checkpoint)
    ensures RefreshCandidates(tickers, a, day, checkpoint, f)
         == RefreshCandidates(tickers, b, day, checkpoint, f)
  {
    SameViewSameCollected(tickers, a, b, day, checkpoint, f);
  }

  ghost predicate InTimeOrder(bars: seq<Bar>) {
    forall i, j :: 0 <= i < j < |bars| ==> bars[i].time <= bars[j].time
  }

  lemma {:induction false} VisibleIsPrefix(bars: seq<Bar>, checkpoint: int)
    requires InTimeOrder(bars)
    ensures Visible(bars, checkpoint) == bars[..|Visible(bars, checkpoint)|]
  {
    if bars != [] {
      VisibleIsPrefix(bars[1..], checkpoint);
      if bars[0].time > checkpoint {
        forall i | 0 <= i < |bars[1..]| ensures !Until(checkpoint)(bars[1..][i]) {
          assert bars[1..][i] == bars[i + 1];
        }
        FilterNone(Until(checkpoint), bars[1..]);
      }
    }
  }

  /** Once three bars of the day are visible, agreeing up to the checkpoint is enough. */
  lemma ThreeVisibleBarsSuffice(a: seq<Bar>, b: seq<Bar>, day: int, checkpoint: int)
    requires Filter(Before(day), a) == Filter(Before(day), b)
    requires InTimeOrder(BarsForDay(a, day)) && InTimeOrder(BarsForDay(b, day))
    requires Visible(BarsForDay(a, day), checkpoint) == Visible(BarsForDay(b, day), checkpoint)
    requires |Visible(BarsForDay(a, day), checkpoint)| >= 3
    ensures SameView(a, b, day, checkpoint)
  {
    var left, right := BarsForDay(a, day), BarsForDay(b, day);
    VisibleIsPrefix(left, checkpoint);
    VisibleIsPrefix(right, checkpoint);
    var seen := Visible(left, checkpoint);
    assert FirstThree(left) == seen[..3] && FirstThree(right) == seen[..3];
  }

  // ---- the opening volume looks ahead ---------------------------------------------

  function FlatBar(day: int, time: int, volume: real): Bar {
    Bar(day, time, 10.0, 10.0, 10.0, 10.0, volume)
  }

  /** One bar yesterday, and two bars today whose second has the given volume. */
  function TwoBarHistory(second: real): seq<Bar> {
    [FlatBar(0, 0, 100.0), FlatBar(1, 1000, 50.0), FlatBar(1, 1300, second)]
  }

  const LENIENT := Filters(1.0, 100.0, 0.0, 1.0, 0.5, 0.5, 3)

  lemma Unfold(p: Bar -> bool, x: Bar, rest: seq<Bar>)
    ensures Filter(p, [x] + rest) == (if p(x) then [x] else []) + Filter(p, rest)
  {
  }

  lemma TwoBarDays(second: real)
    ensures var bars := TwoBarHistory(second);
            && BarsForDay(bars, 1) == [FlatBar(1, 1000, 50.0), FlatBar(1, 1300, second)]
            && PreviousDayBars(bars, 1) == [FlatBar(0, 0, 100.0)]
            && Filter(Before(1), bars) == [FlatBar(0, 0, 100.0)]
            && Visible(BarsForDay(bars, 1), 1000) == [FlatBar(1, 1000, 50.0)]
  {
    var x, y, z := FlatBar(0, 0, 100.0), FlatBar(1, 1000, 50.0), FlatBar(1, 1300, second);
    assert TwoBarHistory(second) == [x] + ([y] + ([z] + []));
    forall p: Bar -> bool ensures Filter(p, [x] + ([y] + ([z] + [])))
        == (if p(x) then [x] else []) + ((if p(y) then [y] else []) + (if p(z) then [z] else []))
    {
      Unfold(p, x, [y] + ([z] + []));
      Unfold(p, y, [z] + []);
      Unfold(p, z, []);
    }
    assert [y, z] == [y] + ([z] + []);
    Unfold(Until(1000), y, [z] + []);
    Unfold(Until(1000), z, []);
    assert PreviousDay([], 1) == None;
    assert [z][1..] == [] && PreviousDay([z], 1) == None;
    assert [y, z][1..] == [z] && PreviousDay([y, z], 1) == None;
    assert [x, y, z][1..] == [y, z] && PreviousDay([x, y, z], 1) == Some(0);
  }

  lemma TwoBarRatio(second: real)
    ensures OpeningVolumeRatio(BarsForDay(TwoBarHistory(second), 1), PreviousDayBars(TwoBarHistory(second), 1))
         == (50.0 + second) / 100.0
  {
    TwoBarDays(second);
    var y, z, x := FlatBar(1, 1000, 50.0), FlatBar(1, 1300, second), FlatBar(0, 0, 100.0);
    assert FirstThree([y, z]) == [y, z] && FirstThree([x]) == [x];
    assert SumBy(Volume, []) == 0.0;
    assert [z][1..] == [] && SumBy(Volume, [z]) == second;
    assert [y, z][1..] == [z] && SumBy(Volume, [y, z]) == 50.0 + second;
    assert [x][1..] == [] && SumBy(Volume, [x]) == 100.0;
  }

  /**
   * Agreement up to the checkpoint alone is not enough: at the first bar of the day the candidate
   * depends on the volume of the second bar, which has not happened yet.
   */
  lemma OpeningVolumeLooksAhead()
    ensures var a, b := TwoBarHistory(0.0), TwoBarHistory(50.0);
            && Filter(Before(1), a) == Filter(Before(1), b)
            && Visible(BarsForDay(a, 1), 1000) == Visible(BarsForDay(b, 1), 1000)
            && CandidateOf(a, "T", 1, 1000, LENIENT) != CandidateOf(b, "T", 1, 1000, LENIENT)
  {
    TwoBarDays(0.0);
    TwoBarDays(50.0);
    TwoBarRatio(0.0);
    TwoBarRatio(50.0);
    var b := TwoBarHistory(50.0);
    var previous := PreviousDayBars(b, 1);
    assert Highest(previous) == 10.0 && Lowest(previous) == 10.0;
    assert Highest(Visible(BarsForDay(b, 1), 1000)) == 10.0;
    assert BreakoutPrice(10.0, 10.0, 10.0, 0.5) == Gives(10.0);
  }
}
