/** Which trade closes a sell and which candidate led to a trade, by counts over the inputs. */
module MatchMeaning {
  import C = CandidateResolution
  import opened Common
  import opened ExitMatching
  import S = Sorting

  // ---- the exit of a sell ------------------------------------------------------

  /** A trade that may have closed the row: a sell of its day, ticker and mode. */
  function ClosesRow(row: FillReader.Normalized): Trade -> bool {
    (t: Trade) => t.side.Sell? && t.tradeDate == row.tradeDate && t.isMock == row.isMock
                  && t.ticker == row.ticker
  }

  function ClosesByOrder(row: FillReader.Normalized): Trade -> bool {
    (t: Trade) => ClosesRow(row)(t) && row.orderNo != "" && row.orderNo == t.orderNo
  }

  function ClosesByTime(row: FillReader.Normalized): Trade -> bool {
    (t: Trade) => ClosesRow(row)(t) && t.seconds.Some?
  }

  /** The exit of a known trade: its reason, if it has one. */
  function Exit(t: Trade, how: string, distance: Option<int>): ExitMatch {
    ExitMatch(if t.exitReason == "" then "UNKNOWN" else t.exitReason, how, distance, false)
  }

  function Unclear(how: string, distance: Option<int>): ExitMatch {
    ExitMatch("AMBIGUOUS", how, distance, true)
  }

  /** No two times to compare. */
  ghost predicate Timeless(pool: seq<Trade>, fill: Option<Seconds>) {
    forall t :: t in pool ==> Distance(fill, t.seconds).None?
  }

  ghost predicate IsLeast(least: int, pool: seq<Trade>, fill: Option<Seconds>) {
    && (exists t :: t in pool && Distance(fill, t.seconds) == Some(least))
    && forall t :: t in pool && Distance(fill, t.seconds).Some? ==>
                     least <= Distance(fill, t.seconds).value
  }

  /** Of several trades one must be strictly nearer in time than all others. */
  ghost predicate IsNearest(
    e: ExitMatch, pool: seq<Trade>, fill: Option<Seconds>, near: string, unclear: string, least: int)
  {
    && IsLeast(least, pool, fill)
    && (forall i :: StrictlyNearest(pool, fill, i) ==> e == Exit(pool[i], near, Some(least)))
    && ((forall i :: !StrictlyNearest(pool, fill, i)) ==> e == Unclear(unclear, Some(least)))
  }

  /** What some trades found in one way lead to. */
  ghost predicate IsChosen(
    e: ExitMatch, pool: seq<Trade>, fill: Option<Seconds>, via: string, near: string)
  {
    if |pool| == 1 then e == Exit(pool[0], via, Distance(fill, pool[0].seconds))
    else if Timeless(pool, fill) then e == Unclear(via + "_AMBIGUOUS", None)
    else exists least :: IsNearest(e, pool, fill, near, via + "_TIME_AMBIGUOUS", least)
  }

  /** How a choice by time is named. */
  function Near(via: string): string {
    if via == "TIME_NEAREST" then via else via + "_TIME_NEAREST"
  }

  lemma UntimedStated(pool: seq<Trade>, fill: Option<Seconds>)
    ensures Filter(Timed(fill), pool) == [] <==> Timeless(pool, fill)
  {
    var timed := Filter(Timed(fill), pool);
    if timed != [] {
      assert timed[0] in timed;
    } else {
      assert forall t :: t in pool ==> t !in timed;
    }
  }

  lemma LeastStated(pool: seq<Trade>, fill: Option<Seconds>)
    requires Filter(Timed(fill), pool) != []
    ensures IsLeast(Smallest(fill, Filter(Timed(fill), pool)), pool, fill)
  {
    SmallestIsLeast(fill, Filter(Timed(fill), pool));
  }

  lemma NearestStated(pool: seq<Trade>, fill: Option<Seconds>, via: string)
    requires |pool| > 1 && Filter(Timed(fill), pool) != []
    ensures IsNearest(
              Resolved(Choose(pool, fill, via)), pool, fill, Near(via), via + "_TIME_AMBIGUOUS",
              Smallest(fill, Filter(Timed(fill), pool)))
  {
    ChosenIffStrictlyNearest(pool, fill, via);
    LeastStated(pool, fill);
  }

  lemma ChooseStated(pool: seq<Trade>, fill: Option<Seconds>, via: string)
    requires pool != []
    ensures var c := Choose(pool, fill, via);
            (c.chosen.Some? || c.ambiguous) && IsChosen(Resolved(c), pool, fill, via, Near(via))
  {
    UntimedStated(pool, fill);
    if |pool| > 1 && Filter(Timed(fill), pool) != [] {
      NearestStated(pool, fill, via);
    }
  }

  /** The exit of a sell: by its order's trades, else by timed ones, else by the only trade there is. */
  ghost predicate IsExit(
    e: ExitMatch, row: FillReader.Normalized, trades: seq<Trade>, fill: Option<Seconds>)
  {
    var all := Filter(ClosesRow(row), trades);
    var byOrder, byTime := Filter(ClosesByOrder(row), trades), Filter(ClosesByTime(row), trades);
    if !row.side.Sell? then e == ExitMatch("", "NOT_APPLICABLE", None, false)
    else if byOrder != [] then IsChosen(e, byOrder, fill, "ORDER_NO", "ORDER_NO" + "_TIME_NEAREST")
    else if byTime != [] then IsChosen(e, byTime, fill, "TIME_NEAREST", "TIME_NEAREST")
    else if all == [] then e == ExitMatch("UNKNOWN", "NO_MATCH", None, false)
    else if |all| == 1 then e == Exit(all[0], "FALLBACK_SINGLE", None)
    else e == Unclear("FALLBACK_AMBIGUOUS", None)
  }

  lemma PoolsStated(row: FillReader.Normalized, trades: seq<Trade>)
    ensures var base := Filter(SameDaySell(row), trades);
            && base == Filter(ClosesRow(row), trades)
            && Filter(SameOrder(row), base) == Filter(ClosesByOrder(row), trades)
            && Filter(HasTime, base) == Filter(ClosesByTime(row), trades)
  {
    var every := (t: Trade) => true;
    FilterAll(every, trades);
    FilterTwice(SameDaySell(row), every, ClosesRow(row), trades);
    FilterTwice(SameOrder(row), SameDaySell(row), ClosesByOrder(row), trades);
    FilterTwice(HasTime, SameDaySell(row), ClosesByTime(row), trades);
  }

  lemma StagesByOrder(row: FillReader.Normalized, base: seq<Trade>, fill: Option<Seconds>)
    requires Filter(SameOrder(row), base) != []
    ensures IsChosen(
              Resolved(Stages(row, base, fill)), Filter(SameOrder(row), base), fill, "ORDER_NO",
              "ORDER_NO" + "_TIME_NEAREST")
  {
    ChooseStated(Filter(SameOrder(row), base), fill, "ORDER_NO");
  }

  lemma StagesByTime(row: FillReader.Normalized, base: seq<Trade>, fill: Option<Seconds>)
    requires Filter(SameOrder(row), base) == [] && Filter(HasTime, base) != []
    ensures IsChosen(
              Resolved(Stages(row, base, fill)), Filter(HasTime, base), fill, "TIME_NEAREST",
              "TIME_NEAREST")
  {
    ChooseStated(Filter(HasTime, base), fill, "TIME_NEAREST");
  }

  /** What is left when no trade has the order or a time. */
  function LastResort(base: seq<Trade>): Choice {
    if base == [] then Choice(None, "", None, false)
    else if |base| == 1 then Choice(Some(base[0]), "FALLBACK_SINGLE", None, false)
    else Choice(None, "FALLBACK_AMBIGUOUS", None, true)
  }

  lemma StagesLeft(row: FillReader.Normalized, base: seq<Trade>, fill: Option<Seconds>)
    requires Filter(SameOrder(row), base) == [] && Filter(HasTime, base) == []
    ensures Stages(row, base, fill) == LastResort(base)
  {
    if |base| == 1 {
      assert base[0] in base && base[0] !in Filter(HasTime, base);
    }
  }

  lemma LastResortStated(base: seq<Trade>)
    ensures Resolved(LastResort(base))
         == if base == [] then ExitMatch("UNKNOWN", "NO_MATCH", None, false)
            else if |base| == 1 then Exit(base[0], "FALLBACK_SINGLE", None)
            else Unclear("FALLBACK_AMBIGUOUS", None)
  {
  }

  /** Every exit is the one that the trades of the row's day call for. */
  lemma ExitStated(row: FillReader.Normalized, trades: seq<Trade>, clock: string -> Option<Seconds>)
    ensures IsExit(MatchExit(row, trades, clock), row, trades, clock(row.fillTime))
  {
    var base, fill := Filter(SameDaySell(row), trades), clock(row.fillTime);
    PoolsStated(row, trades);
    if Filter(SameOrder(row), base) != [] {
      StagesByOrder(row, base, fill);
    } else if Filter(HasTime, base) != [] {
      StagesByTime(row, base, fill);
    } else {
      StagesLeft(row, base, fill);
      LastResortStated(base);
    }
  }

  // ---- the candidate behind a trade --------------------------------------------

  /** Not after the buy, when its time is known. */
  predicate InTime(row: C.Row, c: C.Candidate) {
    row.buySeconds.None? || c.seconds <= row.buySeconds.value
  }

  function InTimeFor(row: C.Row): C.Candidate -> bool { (c: C.Candidate) => InTime(row, c) }

  function Live(row: C.Row): C.Candidate -> bool {
    (c: C.Candidate) => InTime(row, c) && !c.blocked
  }

  function Ordered(row: C.Row): C.Candidate -> bool {
    (c: C.Candidate) => InTime(row, c) && !c.blocked && c.orderId != ""
                        && c.orderId in {row.buyOrder, row.sellOrder}
  }

  function Sent(row: C.Row): C.Candidate -> bool {
    (c: C.Candidate) => InTime(row, c) && !c.blocked && c.submitted
  }

  function OfSource(row: C.Row): C.Candidate -> bool {
    (c: C.Candidate) => InTime(row, c) && !c.blocked && c.source != "" && c.source == row.entryReason
  }

  /** The answer is the one candidate with the property. */
  ghost predicate IsOnly(
    r: C.Resolution, candidates: seq<C.Candidate>, p: C.Candidate -> bool, how: C.Method)
  {
    r.Resolved? && r.how == how && r.candidate in candidates && p(r.candidate)
  }

  /** By order, then by submission, then the only one in time, then by source; two are too many. */
  ghost predicate IsResolution(r: C.Resolution, row: C.Row, candidates: seq<C.Candidate>) {
    var ordered, sent := CountBy(Ordered(row), candidates), CountBy(Sent(row), candidates);
    var live, inTime := CountBy(Live(row), candidates), CountBy(InTimeFor(row), candidates);
    if ordered == 1 then IsOnly(r, candidates, Ordered(row), C.ExplicitOrder)
    else if ordered > 1 then r == C.Unresolved(C.ManyActive)
    else if sent == 1 then IsOnly(r, candidates, Sent(row), C.UniqueSubmitted)
    else if sent > 1 then r == C.Unresolved(C.ManyActive)
    else if live == 1 && inTime == 1 then IsOnly(r, candidates, Live(row), C.NearestBefore)
    else if CountBy(OfSource(row), candidates) == 1 then
      IsOnly(r, candidates, OfSource(row), C.SourceAssisted)
    else r == C.Unresolved(if live > 1 then C.ManyActive else C.NoActive)
  }

  lemma {:induction false} Counted(
    p: C.Candidate -> bool, q: C.Candidate -> bool, s: seq<C.Candidate>)
    requires forall c :: p(c) <==> q(c)
    ensures |Filter(p, s)| == CountBy(q, s)
  {
    if s != [] {
      Counted(p, q, s[1..]);
    }
  }

  lemma CountedSorted(p: C.Candidate -> bool, q: C.Candidate -> bool, s: seq<C.Candidate>)
    requires forall c :: p(c) <==> q(c)
    ensures var kept := Filter(p, S.Sort(C.EarlierCandidate, s));
            |kept| == CountBy(q, s) && (|kept| == 1 ==> kept[0] in s && q(kept[0]))
  {
    C.OrderTotal();
    S.SortSorts(C.EarlierCandidate, s);
    FilterPermutation(p, S.Sort(C.EarlierCandidate, s), s);
    OneElement(Filter(p, S.Sort(C.EarlierCandidate, s)), Filter(p, s));
    Counted(p, q, s);
    if |Filter(p, s)| == 1 {
      assert Filter(p, s)[0] in Filter(p, s);
    }
  }

  lemma ResolutionStated(row: C.Row, candidates: seq<C.Candidate>)
    ensures IsResolution(C.ResolveActiveCandidate(row, candidates), row, candidates)
  {
    CountedSorted(C.ExplicitTest(row), Ordered(row), candidates);
    CountedSorted(C.SubmittedTest(row), Sent(row), candidates);
    CountedSorted(C.ActiveTest(row), Live(row), candidates);
    CountedSorted(C.BeforeTest(row), InTimeFor(row), candidates);
    CountedSorted(C.SourceTest(row), OfSource(row), candidates);
  }
}
