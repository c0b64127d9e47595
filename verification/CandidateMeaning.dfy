/** What a candidate is, what it scores and which are listed, said on bars and scores alone. */
module CandidateMeaning {
  import opened CandidateSelection
  import opened Common
  import opened Sorting
  import opened TradeSimulation

  // ---- the list ------------------------------------------------------------------------

  /** A higher score, or the same and a ticker not after the other's. */
  ghost predicate NotWorse(a: Candidate, b: Candidate) {
    a.score > b.score || (a.score == b.score && TextLeq(a.ticker, b.ticker))
  }

  /** The list names, best first, as many of the candidates as the limit allows, none worse than those left. */
  ghost predicate TakesBest(
    list: seq<string>, candidates: seq<Candidate>, limit: int, taken: seq<Candidate>,
    left: seq<Candidate>)
  {
    && multiset(taken) + multiset(left) == multiset(candidates)
    && |list| == |taken| == (if limit <= 0 then 0 else if limit <= |candidates| then limit else |candidates|)
    && (forall i :: 0 <= i < |list| ==> list[i] == taken[i].ticker)
    && (forall i, j :: 0 <= i < j < |taken| ==> NotWorse(taken[i], taken[j]))
    && forall i, j :: 0 <= i < |taken| && 0 <= j < |left| ==> NotWorse(taken[i], left[j])
  }

  lemma SplitKeepsBest(sorted: seq<Candidate>, n: nat)
    requires n <= |sorted| && Sorted(CandidateLeq, sorted)
    ensures forall i, j :: 0 <= i < j < n ==> NotWorse(sorted[..n][i], sorted[..n][j])
    ensures forall i, j :: 0 <= i < n && 0 <= j < |sorted| - n ==>
                             NotWorse(sorted[..n][i], sorted[n..][j])
  {
    forall i, j | 0 <= i < n && 0 <= j < |sorted| - n ensures NotWorse(sorted[..n][i], sorted[n..][j]) {
      assert CandidateLeq(sorted[i], sorted[n + j]);
    }
  }

  lemma SplitKeepsAll<T>(s: seq<T>, n: nat)
    requires n <= |s|
    ensures multiset(s[..n]) + multiset(s[n..]) == multiset(s)
  {
    assert s == s[..n] + s[n..];
  }

  /** The highest scores are taken, and of equal scores the smaller tickers. */
  lemma ListTakesHighestScores(candidates: seq<Candidate>, limit: int)
    returns (taken: seq<Candidate>, left: seq<Candidate>)
    ensures TakesBest(Ranked(candidates, limit), candidates, limit, taken, left)
  {
    var sorted, n := Sort(CandidateLeq, candidates), |Ranked(candidates, limit)|;
    assert |sorted| == |candidates| && Sorted(CandidateLeq, sorted) by {
      CandidateOrderTotal();
      SortSorts(CandidateLeq, candidates);
    }
    RankedTakesTheBest(candidates, limit);
    SplitKeepsBest(sorted, n);
    SplitKeepsAll(sorted, n);
    taken, left := sorted[..n], sorted[n..];
  }

  /** The candidates are those of the tickers. */
  lemma {:induction false} CandidatesOfTickers(
    tickers: seq<string>, history: map<string, seq<Bar>>, day: int, checkpoint: int, f: Filters)
    requires Collected(tickers, history, day, checkpoint, f).Gives?
    ensures forall t :: t in tickers ==> CandidateOf(BarsOf(history, t), t, day, checkpoint, f).Gives?
    ensures forall c :: c in Collected(tickers, history, day, checkpoint, f).value <==>
                          exists t :: t in tickers && IsMine(t, c, history, day, checkpoint, f)
  {
    if tickers != [] {
      var front, last := tickers[..|tickers| - 1], tickers[|tickers| - 1];
      CandidatesOfTickers(front, history, day, checkpoint, f);
      assert forall t :: t in tickers <==> t in front || t == last;
      LastAdds(tickers, history, day, checkpoint, f);
      forall c
        ensures c in Collected(tickers, history, day, checkpoint, f).value <==>
                  exists t :: t in tickers && IsMine(t, c, history, day, checkpoint, f)
      {
        if t :| t in tickers && IsMine(t, c, history, day, checkpoint, f) {
          assert t in front || t == last;
        }
        if IsMine(last, c, history, day, checkpoint, f) {
          assert last in tickers;
        }
      }
    }
  }

  lemma LastAdds(
    tickers: seq<string>, history: map<string, seq<Bar>>, day: int, checkpoint: int, f: Filters)
    requires tickers != [] && Collected(tickers, history, day, checkpoint, f).Gives?
    ensures var front, last := tickers[..|tickers| - 1], tickers[|tickers| - 1];
            var before := Collected(front, history, day, checkpoint, f);
            var mine := CandidateOf(BarsOf(history, last), last, day, checkpoint, f);
            && before.Gives? && mine.Gives?
            && Collected(tickers, history, day, checkpoint, f).value
               == before.value + if mine.value.Some? then [mine.value.value] else []
  {
  }

  ghost predicate IsMine(
    ticker: string, c: Candidate, history: map<string, seq<Bar>>, day: int, checkpoint: int,
    f: Filters)
  {
    CandidateOf(BarsOf(history, ticker), ticker, day, checkpoint, f) == Gives(Some(c))
  }

  lemma CountLast<T>(p: T -> bool, s: seq<T>)
    requires s != []
    ensures CountBy(p, s) == CountBy(p, s[..|s| - 1]) + if p(s[|s| - 1]) then 1 else 0
  {
    var front, last := s[..|s| - 1], s[|s| - 1];
    assert s == front + [last];
    CountByAppend(p, front, [last]);
    assert [last][1..] == [];
  }

  lemma LastCounts(
    tickers: seq<string>, history: map<string, seq<Bar>>, day: int, checkpoint: int, f: Filters)
    requires tickers != [] && Collected(tickers, history, day, checkpoint, f).Gives?
    ensures var front, last := tickers[..|tickers| - 1], tickers[|tickers| - 1];
            && Collected(front, history, day, checkpoint, f).Gives?
            && |Collected(tickers, history, day, checkpoint, f).value|
               == |Collected(front, history, day, checkpoint, f).value|
                  + if HasCandidate(history, day, checkpoint, f)(last) then 1 else 0
  {
    LastAdds(tickers, history, day, checkpoint, f);
  }

  /** There is one for each time a ticker that has one is asked for. */
  lemma {:induction false} CandidatesCounted(
    tickers: seq<string>, history: map<string, seq<Bar>>, day: int, checkpoint: int, f: Filters)
    requires Collected(tickers, history, day, checkpoint, f).Gives?
    ensures |Collected(tickers, history, day, checkpoint, f).value|
         == CountBy(HasCandidate(history, day, checkpoint, f), tickers)
  {
    if tickers != [] {
      LastCounts(tickers, history, day, checkpoint, f);
      CandidatesCounted(tickers[..|tickers| - 1], history, day, checkpoint, f);
      CountLast(HasCandidate(history, day, checkpoint, f), tickers);
    }
  }

  function HasCandidate(history: map<string, seq<Bar>>, day: int, checkpoint: int, f: Filters)
    : string -> bool
  {
    (t: string) =>
      CandidateOf(BarsOf(history, t), t, day, checkpoint, f).Gives?
      && CandidateOf(BarsOf(history, t), t, day, checkpoint, f).value.Some?
  }

  // ---- one candidate ---------------------------------------------------------------------

  ghost predicate IsHigh(bars: seq<Bar>, h: real) {
    (forall b :: b in bars ==> b.high <= h) && exists b :: b in bars && b.high == h
  }

  ghost predicate IsLow(bars: seq<Bar>, l: real) {
    (forall b :: b in bars ==> b.low >= l) && exists b :: b in bars && b.low == l
  }

  lemma {:induction false} HighAndLow(bars: seq<Bar>)
    requires bars != []
    ensures IsHigh(bars, Highest(bars)) && IsLow(bars, Lowest(bars))
  {
    assert bars[0] in bars;
    if |bars| > 1 {
      HighAndLow(bars[1..]);
      assert forall b :: b in bars <==> b == bars[0] || b in bars[1..];
    }
  }

  lemma OneHighLow(bars: seq<Bar>, h: real, l: real)
    requires bars != []
    ensures IsHigh(bars, h) ==> h == Highest(bars)
    ensures IsLow(bars, l) ==> l == Lowest(bars)
  {
    HighAndLow(bars);
  }

  /** How much of the volume of some bars the first as many of others had; zero without any. */
  ghost predicate IsVolumeRatio(ratio: real, now: seq<Bar>, before: seq<Bar>) {
    var sum := SumBy(Volume, before);
    ratio == if sum <= 0.0 then 0.0 else SumBy(Volume, now) / sum
  }

  function FirstBars(bars: seq<Bar>, n: nat): seq<Bar> { if |bars| <= n then bars else bars[..n] }

  /** The opening filters: price, change against the previous close, and volume of three bars. */
  ghost predicate OpensWell(today: seq<Bar>, previous: seq<Bar>, f: Filters)
    requires today != [] && previous != []
  {
    var open, close := today[0].open, previous[|previous| - 1].close;
    && close > 0.0 && f.minPrice <= open <= f.maxPrice
    && f.minOpeningChange <= open / close - 1.0 < f.maxOpeningGap
    && exists ratio :: IsVolumeRatio(ratio, FirstBars(today, 3), FirstBars(previous, 3))
                       && ratio >= f.minVolumeRatio
  }

  lemma OpensWellStated(today: seq<Bar>, previous: seq<Bar>, f: Filters)
    requires today != [] && previous != []
    ensures PassesOpeningFilters(today, previous, f) <==> OpensWell(today, previous, f)
  {
    assert FirstBars(today, 3) == FirstThree(today) && FirstBars(previous, 3) == FirstThree(previous);
    assert IsVolumeRatio(
        OpeningVolumeRatio(today, previous), FirstBars(today, 3), FirstBars(previous, 3));
  }

  /** The breakout price lies the given share of the previous day's range above the opening price. */
  ghost predicate IsBreakout(price: real, open: real, previous: seq<Bar>, k: real) {
    exists h, l :: IsHigh(previous, h) && IsLow(previous, l) && IsAbove(price, open, h, l, k)
  }

  ghost predicate IsAbove(price: real, open: real, high: real, low: real, k: real) {
    && open > 0.0 && high > 0.0 && low > 0.0 && high >= low
    && price == open + (high - low) * k
  }

  lemma AboveStated(price: real, open: real, high: real, low: real, k: real)
    ensures IsAbove(price, open, high, low, k) <==> BreakoutPrice(open, high, low, k) == Gives(price)
  {
  }

  lemma BreakoutStated(price: real, open: real, previous: seq<Bar>, k: real)
    requires previous != []
    ensures IsBreakout(price, open, previous, k)
            <==> BreakoutPrice(open, Highest(previous), Lowest(previous), k) == Gives(price)
  {
    HighAndLow(previous);
    AboveStated(price, open, Highest(previous), Lowest(previous), k);
    if IsBreakout(price, open, previous, k) {
      var h, l :| IsHigh(previous, h) && IsLow(previous, l) && IsAbove(price, open, h, l, k);
      OneHighLow(previous, h, l);
    }
  }

  /** The change of the last visible close since the opening, in percent, plus the volume ratio. */
  ghost predicate IsScore(score: real, today: seq<Bar>, seen: seq<Bar>, previous: seq<Bar>)
    requires today != [] && today[0].open > 0.0 && seen != []
  {
    exists ratio :: IsVolumeRatio(ratio, seen, FirstBars(previous, |seen|))
                    && score == (seen[|seen| - 1].close / today[0].open - 1.0) * 100.0 + ratio
  }

  lemma ScoreStated(today: seq<Bar>, previous: seq<Bar>, checkpoint: int)
    requires today != [] && today[0].open > 0.0 && Visible(today, checkpoint) != []
    ensures IsScore(
              Score(today, previous, checkpoint), today, Visible(today, checkpoint), previous)
  {
    var seen := Visible(today, checkpoint);
    assert FirstBars(previous, |seen|) == previous[..Min(Max(1, |seen|), |previous|)];
    assert IsVolumeRatio(
        VisibleVolumeRatio(seen, previous), seen, FirstBars(previous, |seen|));
  }

  /** Some bar seen has come within two percent of the breakout price. */
  ghost predicate ComesNear(seen: seq<Bar>, breakout: real) {
    exists b :: b in seen && b.high >= breakout * 0.98
  }

  /** What makes a ticker a candidate at a checkpoint, and what it then scores, said on its bars. */
  lemma CandidateStatedOnBars(
    bars: seq<Bar>, ticker: string, day: int, checkpoint: int, f: Filters)
    ensures var today, previous := BarsForDay(bars, day), PreviousDayBars(bars, day);
            var seen, mine := Visible(today, checkpoint), CandidateOf(bars, ticker, day, checkpoint, f);
            var asked := |today| >= 2 && previous != [] && OpensWell(today, previous, f) && seen != [];
            && (mine.Raises? <==> asked && !exists b :: IsBreakout(b, today[0].open, previous, f.breakoutK))
            && (mine.Gives? && mine.value.Some? <==>
                  asked && exists b :: IsBreakout(b, today[0].open, previous, f.breakoutK)
                                       && ComesNear(seen, b))
            && (mine.Gives? && mine.value.Some? ==>
                  mine.value.value.ticker == ticker && today[0].open > 0.0
                  && IsScore(mine.value.value.score, today, seen, previous))
  {
    var today, previous := BarsForDay(bars, day), PreviousDayBars(bars, day);
    var seen := Visible(today, checkpoint);
    if |today| >= 2 && previous != [] && seen != [] {
      OpensWellStated(today, previous, f);
      var breakout := BreakoutPrice(today[0].open, Highest(previous), Lowest(previous), f.breakoutK);
      forall b ensures IsBreakout(b, today[0].open, previous, f.breakoutK) <==> breakout == Gives(b) {
        BreakoutStated(b, today[0].open, previous, f.breakoutK);
      }
      HighAndLow(seen);
      if breakout.Gives? {
        assert ComesNear(seen, breakout.value) <==> Highest(seen) >= breakout.value * 0.98;
        ScoreStated(today, previous, checkpoint);
      }
    }
  }

  /** The previous day is the latest earlier day of the history, with all its bars. */
  lemma {:induction false} PreviousDayStated(bars: seq<Bar>, day: int)
    ensures var previous := PreviousDay(bars, day);
            && (previous.None? <==> forall b :: b in bars ==> b.day >= day)
            && (previous.Some? ==>
                  && previous.value < day && (exists b :: b in bars && b.day == previous.value)
                  && (forall b :: b in bars && b.day < day ==> b.day <= previous.value)
                  && forall b :: b in PreviousDayBars(bars, day)
                                 <==> b in bars && b.day == previous.value)
  {
    if bars != [] {
      PreviousDayStated(bars[1..], day);
      assert forall b :: b in bars <==> b == bars[0] || b in bars[1..];
    }
  }
}
