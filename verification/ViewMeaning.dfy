/** What the figures of a view and a reconciled day say of the sells they stand for. */
module ViewMeaning {
  import opened Common
  import opened ExitMatching
  import opened FillReader
  import opened Grouping
  import opened PnlViews
  import opened Reconciliation
  import S = Sorting

  // ---- which sells -------------------------------------------------------------

  /** A sell read with high confidence that nothing excludes. */
  predicate IsTrusted(r: ReviewRow) {
    r.row.side.Sell? && r.row.decision.confidence.High? && r.row.exclusion == NotExcluded
  }

  /** A sell that is neither ambiguous nor without its profit. */
  predicate IsBest(r: ReviewRow) {
    r.row.side.Sell? && !r.row.decision.reading.AmbiguousExcluded? && !r.row.excludedBest
  }

  function Earned(r: ReviewRow): Option<real> { r.row.metrics.profit }

  function EarnedRate(r: ReviewRow): Option<real> { r.row.metrics.profitRate }

  predicate Priced(r: ReviewRow) { Earned(r).Some? }

  predicate Rated(r: ReviewRow) { EarnedRate(r).Some? }

  predicate Wins(r: ReviewRow) { Earned(r).Some? && Earned(r).value > 0.0 }

  predicate Loses(r: ReviewRow) { Earned(r).Some? && Earned(r).value < 0.0 }

  function Amount(r: ReviewRow): real { Earned(r).GetOr(0.0) }

  function RateAmount(r: ReviewRow): real { EarnedRate(r).GetOr(0.0) }

  function Won(r: ReviewRow): real { if Wins(r) then Earned(r).value else 0.0 }

  function Lost(r: ReviewRow): real { if Loses(r) then Earned(r).value else 0.0 }

  // ---- figures -----------------------------------------------------------------

  /** A sum divided by a count, missing when nothing is counted. */
  predicate IsMean(mean: Option<real>, sum: real, count: nat) {
    if count == 0 then mean.None? else mean.Some? && mean.value * count as real == sum
  }

  /** What was won over what was lost, missing when nothing was. */
  predicate IsFactor(factor: Option<real>, won: real, lost: real, losses: nat) {
    if losses == 0 then factor.None? else factor.Some? && factor.value * (0.0 - lost) == won
  }

  /** The highest profit of a winner, the lowest of a loser. */
  ghost predicate IsExtreme(x: Option<real>, rows: seq<ReviewRow>, counts: ReviewRow -> bool, up: bool) {
    if x.None? then forall r :: r in rows ==> !counts(r)
    else
      && (exists r :: r in rows && counts(r) && Amount(r) == x.value)
      && forall r :: r in rows && counts(r) ==> if up then Amount(r) <= x.value else Amount(r) >= x.value
  }

  /** The figures of some sells: only those of known profit count. */
  ghost predicate AreFigures(f: Figures, rows: seq<ReviewRow>) {
    var won, lost := SumBy(Won, rows), SumBy(Lost, rows);
    && f.sellCount == CountBy(Priced, rows) && f.total == SumBy(Amount, rows)
    && f.winCount == CountBy(Wins, rows) && f.lossCount == CountBy(Loses, rows)
    && IsMean(f.average, f.total, f.sellCount)
    && IsMean(f.winRate, f.winCount as real, f.sellCount)
    && IsMean(f.averageWin, won, f.winCount) && IsMean(f.averageLoss, lost, f.lossCount)
    && IsFactor(f.profitFactor, won, lost, f.lossCount)
    && IsExtreme(f.maxWin, rows, Wins, true) && IsExtreme(f.maxLoss, rows, Loses, false)
    && IsMean(f.averageRate, SumBy(RateAmount, rows), CountBy(Rated, rows))
  }

  lemma {:induction false} ColumnsStated(rows: seq<ReviewRow>)
    ensures var profits, rates := Known(Map(Profit, rows)), Known(Map(Rate, rows));
            && |profits| == CountBy(Priced, rows) && Total(profits) == SumBy(Amount, rows)
            && |rates| == CountBy(Rated, rows) && Total(rates) == SumBy(RateAmount, rows)
  {
    if rows != [] {
      var rest := rows[1..];
      ColumnsStated(rest);
      assert Map(Profit, rows)[1..] == Map(Profit, rest) && Map(Rate, rows)[1..] == Map(Rate, rest);
      if Priced(rows[0]) {
        TotalCons(Earned(rows[0]).value, Known(Map(Profit, rest)));
      }
      if Rated(rows[0]) {
        TotalCons(EarnedRate(rows[0]).value, Known(Map(Rate, rest)));
      }
    }
  }

  lemma TotalCons(x: real, rest: seq<real>)
    ensures Total([x] + rest) == x + Total(rest) && |[x] + rest| == 1 + |rest|
  {
    assert ([x] + rest)[1..] == rest;
  }

  lemma FilterCons(p: real -> bool, x: real, rest: seq<real>)
    ensures Filter(p, [x] + rest) == (if p(x) then [x] else []) + Filter(p, rest)
  {
    assert ([x] + rest)[1..] == rest;
  }

  lemma {:induction false} SidesStated(rows: seq<ReviewRow>)
    ensures var profits := Known(Map(Profit, rows));
            var wins, losses := Filter(Positive, profits), Filter(Negative, profits);
            && |wins| == CountBy(Wins, rows) && Total(wins) == SumBy(Won, rows)
            && |losses| == CountBy(Loses, rows) && Total(losses) == SumBy(Lost, rows)
  {
    if rows != [] {
      var rest := rows[1..];
      SidesStated(rest);
      assert Map(Profit, rows)[1..] == Map(Profit, rest);
      if Priced(rows[0]) {
        var x, known := Earned(rows[0]).value, Known(Map(Profit, rest));
        FilterCons(Positive, x, known);
        FilterCons(Negative, x, known);
        TotalCons(x, Filter(Positive, known));
        TotalCons(x, Filter(Negative, known));
      }
    }
  }

  lemma {:induction false} KnownStated(rows: seq<ReviewRow>, x: real)
    ensures x in Known(Map(Profit, rows)) <==> exists r :: r in rows && Earned(r) == Some(x)
  {
    if rows != [] {
      var rest := rows[1..];
      KnownStated(rest, x);
      assert Map(Profit, rows)[1..] == Map(Profit, rest);
      assert Known(Map(Profit, rows))
          == (if Priced(rows[0]) then [Earned(rows[0]).value] else []) + Known(Map(Profit, rest));
      if r :| r in rest && Earned(r) == Some(x) {
        assert r in rows;
      }
      if r :| r in rows && Earned(r) == Some(x) && r !in rest {
        assert r == rows[0];
      }
    }
  }

  lemma {:induction false} GreatestStated(values: seq<real>)
    ensures Greatest(values).None? <==> values == []
    ensures Least(values).None? <==> values == []
    ensures values != [] ==>
              && Greatest(values).value in values && Least(values).value in values
              && forall x :: x in values ==> Least(values).value <= x <= Greatest(values).value
  {
    if values != [] {
      GreatestStated(values[1..]);
      assert forall x :: x in values <==> x == values[0] || x in values[1..];
    }
  }

  lemma ExtremeStated(rows: seq<ReviewRow>, side: real -> bool, counts: ReviewRow -> bool)
    requires forall r :: counts(r) <==> Priced(r) && side(Amount(r))
    ensures var kept := Filter(side, Known(Map(Profit, rows)));
            IsExtreme(Greatest(kept), rows, counts, true) && IsExtreme(Least(kept), rows, counts, false)
  {
    var profits := Known(Map(Profit, rows));
    var kept := Filter(side, profits);
    forall x ensures x in kept <==> exists r :: r in rows && counts(r) && Amount(r) == x {
      KnownStated(rows, x);
      if x in profits {
        var r :| r in rows && Earned(r) == Some(x);
        assert Amount(r) == x;
      }
      if r :| r in rows && counts(r) && Amount(r) == x {
        assert Earned(r) == Some(x);
      }
    }
    GreatestStated(kept);
  }

  lemma ExtremesStated(rows: seq<ReviewRow>)
    ensures var profits := Known(Map(Profit, rows));
            && IsExtreme(Greatest(Filter(Positive, profits)), rows, Wins, true)
            && IsExtreme(Least(Filter(Negative, profits)), rows, Loses, false)
  {
    ExtremeStated(rows, Positive, Wins);
    ExtremeStated(rows, Negative, Loses);
  }

  lemma MeanStated(values: seq<real>, sum: real, count: nat)
    requires Total(values) == sum && |values| == count
    ensures IsMean(Mean(values), sum, count)
  {
  }

  lemma WinRateStated(wins: nat, count: nat)
    ensures IsMean(if count == 0 then None else Some(wins as real / count as real), wins as real, count)
  {
  }

  lemma FactorStated(losses: seq<real>, won: real, lost: real)
    requires Total(losses) == lost && (losses != [] ==> lost < 0.0) && (losses == [] ==> lost == 0.0)
    ensures IsFactor(if lost < 0.0 then Some(won / -lost) else None, won, lost, |losses|)
  {
  }

  lemma CountsStated(rows: seq<ReviewRow>)
    ensures var f := ProfitFigures(rows);
            && f.sellCount == CountBy(Priced, rows) && f.total == SumBy(Amount, rows)
            && f.winCount == CountBy(Wins, rows) && f.lossCount == CountBy(Loses, rows)
  {
    ColumnsStated(rows);
    SidesStated(rows);
  }

  lemma SideMeansStated(rows: seq<ReviewRow>)
    ensures var f, won, lost := ProfitFigures(rows), SumBy(Won, rows), SumBy(Lost, rows);
            && IsMean(f.averageWin, won, f.winCount) && IsMean(f.averageLoss, lost, f.lossCount)
            && IsFactor(f.profitFactor, won, lost, f.lossCount)
  {
    var profits := Known(Map(Profit, rows));
    var wins, losses := Filter(Positive, profits), Filter(Negative, profits);
    SidesStated(rows);
    WinsAndLosses(profits);
    MeanStated(wins, SumBy(Won, rows), |wins|);
    MeanStated(losses, SumBy(Lost, rows), |losses|);
    FactorStated(losses, SumBy(Won, rows), SumBy(Lost, rows));
  }

  lemma MeansStated(rows: seq<ReviewRow>)
    ensures var f := ProfitFigures(rows);
            && IsMean(f.average, f.total, f.sellCount)
            && IsMean(f.winRate, f.winCount as real, f.sellCount)
            && IsMean(f.averageRate, SumBy(RateAmount, rows), CountBy(Rated, rows))
  {
    var profits, rates := Known(Map(Profit, rows)), Known(Map(Rate, rows));
    ColumnsStated(rows);
    MeanStated(profits, Total(profits), |profits|);
    MeanStated(rates, SumBy(RateAmount, rows), |rates|);
    WinRateStated(|Filter(Positive, profits)|, |profits|);
  }

  /** The figures of any sells are the counts, totals, averages and extremes of their profits. */
  lemma FiguresStated(rows: seq<ReviewRow>)
    ensures AreFigures(ProfitFigures(rows), rows)
  {
    CountsStated(rows);
    MeansStated(rows);
    SideMeansStated(rows);
    ExtremesStated(rows);
  }

  // ---- a view ------------------------------------------------------------------

  function TrustedAt(key: ReviewRow -> seq<string>, k: seq<string>): ReviewRow -> bool {
    (r: ReviewRow) => key(r) == k && IsTrusted(r)
  }

  function BestAt(key: ReviewRow -> seq<string>, k: seq<string>): ReviewRow -> bool {
    (r: ReviewRow) => key(r) == k && IsBest(r)
  }

  /** The row shows the figures of the trusted and of the best-effort sells under its key. */
  ghost predicate ShowsSells(v: ViewRow, rows: seq<ReviewRow>, key: ReviewRow -> seq<string>) {
    && AreFigures(v.trusted, Filter(TrustedAt(key, v.key), rows))
    && AreFigures(v.best, Filter(BestAt(key, v.key), rows))
    && exists r :: r in rows && key(r) == v.key && (IsTrusted(r) || IsBest(r))
  }

  function SellAt(key: ReviewRow -> seq<string>, k: seq<string>): ReviewRow -> bool {
    (r: ReviewRow) => key(r) == k && IsSell(r)
  }

  lemma GroupsStated(rows: seq<ReviewRow>, key: ReviewRow -> seq<string>, k: seq<string>)
    ensures var group := Group(key, k, Filter(IsSell, rows));
            && Filter(Trusted, group) == Filter(TrustedAt(key, k), rows)
            && Filter(BestEffort, group) == Filter(BestAt(key, k), rows)
  {
    FilterTwice(HasKey(key, k), IsSell, SellAt(key, k), rows);
    FilterTwice(Trusted, SellAt(key, k), TrustedAt(key, k), rows);
    FilterTwice(BestEffort, SellAt(key, k), BestAt(key, k), rows);
  }

  lemma {:induction false} ViewRowAt(
    sells: seq<ReviewRow>, key: ReviewRow -> seq<string>, keys: seq<seq<string>>, i: nat)
    requires i < |ViewOver(sells, key, keys)|
    ensures var v := ViewOver(sells, key, keys)[i];
            v == RowFor(v.key, Group(key, v.key, sells)) && Shown(Group(key, v.key, sells))
  {
    var front, last := keys[..|keys| - 1], keys[|keys| - 1];
    if i < |ViewOver(sells, key, front)| {
      ViewRowAt(sells, key, front, i);
    }
  }

  lemma {:induction false} ViewHasKey(
    sells: seq<ReviewRow>, key: ReviewRow -> seq<string>, keys: seq<seq<string>>, k: seq<string>)
    returns (i: nat)
    requires k in keys && Shown(Group(key, k, sells))
    ensures i < |ViewOver(sells, key, keys)| && ViewOver(sells, key, keys)[i].key == k
  {
    var front, last := keys[..|keys| - 1], keys[|keys| - 1];
    assert keys == front + [last];
    if k == last {
      i := |ViewOver(sells, key, front)|;
    } else {
      i := ViewHasKey(sells, key, front, k);
    }
  }

  /** Each row of a view shows the sells under its key, and no key has two rows. */
  lemma ViewStated(rows: seq<ReviewRow>, key: ReviewRow -> seq<string>, i: nat)
    requires i < |View(rows, key)|
    ensures ShowsSells(View(rows, key)[i], rows, key)
  {
    var sells, v := Filter(IsSell, rows), View(rows, key)[i];
    ViewRowAt(sells, key, ViewKeys(rows, key), i);
    GroupsStated(rows, key, v.key);
    var trusted, best := Filter(TrustedAt(key, v.key), rows), Filter(BestAt(key, v.key), rows);
    FiguresStated(trusted);
    FiguresStated(best);
    if trusted != [] {
      assert trusted[0] in trusted;
    } else {
      assert best[0] in best;
    }
  }

  /** Every trusted or best-effort sell is shown under its key. */
  lemma SellIsShown(rows: seq<ReviewRow>, key: ReviewRow -> seq<string>, r: ReviewRow) returns (i: nat)
    requires r in rows && (IsTrusted(r) || IsBest(r))
    ensures i < |View(rows, key)| && View(rows, key)[i].key == key(r)
  {
    var sells := Filter(IsSell, rows);
    KeysOfFacts(key, sells);
    TupleOrderTotal();
    S.SortSorts(TupleLeq, KeysOf(key, sells));
    GroupsStated(rows, key, key(r));
    assert r in Filter(TrustedAt(key, key(r)), rows) || r in Filter(BestAt(key, key(r)), rows);
    i := ViewHasKey(sells, key, ViewKeys(rows, key), key(r));
  }

  /** The three views tell sells apart by day, ticker, or day and exit reason, each by trading mode. */
  lemma KeysStated(a: ReviewRow, b: ReviewRow)
    requires a.row.tradeDate != "" && b.row.tradeDate != ""
    requires a.row.ticker != "" && b.row.ticker != ""
    requires a.exit.exitReason != "" && b.exit.exitReason != ""
    ensures ByDay(a) == ByDay(b)
       <==> a.row.tradeDate == b.row.tradeDate && a.row.isMock == b.row.isMock
    ensures ByTicker(a) == ByTicker(b)
       <==> a.row.ticker == b.row.ticker && a.row.isMock == b.row.isMock
    ensures ByExitReason(a) == ByExitReason(b)
       <==> && a.row.tradeDate == b.row.tradeDate && a.row.isMock == b.row.isMock
            && a.exit.exitReason == b.exit.exitReason
  {
    ModesDiffer(a.row.isMock, b.row.isMock);
  }

  lemma ModesDiffer(a: Option<bool>, b: Option<bool>)
    ensures Mode(a) == Mode(b) <==> a == b
  {
    assert Mode(Some(true))[0] == 'M' && Mode(Some(false))[0] == 'R' && Mode(None)[0] == 'U';
  }

  // ---- a reconciled day --------------------------------------------------------

  /** The day's sells of the two kinds that are counted apart. */
  function AmbiguousOn(k: seq<string>): ReviewRow -> bool {
    (r: ReviewRow) => RowDay(r) == k && r.row.side.Sell? && r.row.decision.reading.AmbiguousExcluded?
  }

  function OrderlessOn(k: seq<string>): ReviewRow -> bool {
    (r: ReviewRow) => RowDay(r) == k && r.row.side.Sell? && r.row.decision.reading.NoOrderNoFallback?
  }

  function RawProfitOf(r: ReviewRow): real { r.row.rawProfit }

  function SellOn(k: seq<string>): Fill -> bool {
    (f: Fill) => FillDay(f) == k && f.side.Sell?
  }

  function ProfitOfFill(f: Fill): real { f.profit.GetOr(0.0) }

  /** The counts and totals of a day, of its raw sells and of the rows they are read into. */
  ghost predicate CountsDay(row: RecRow, fills: seq<Fill>, rows: seq<ReviewRow>) {
    var k := row.key;
    var raw, trusted, best := Filter(SellOn(k), fills), Filter(TrustedAt(RowDay, k), rows),
                              Filter(BestAt(RowDay, k), rows);
    var ambiguous := Filter(AmbiguousOn(k), rows);
    && row.rawCount == |raw| && row.rawProfit == SumBy(ProfitOfFill, raw)
    && row.trustedCount == |trusted| && row.trustedProfit == SumBy(Amount, trusted)
    && row.bestCount == |best| && row.bestProfit == SumBy(Amount, best)
    && row.ambiguousCount == |ambiguous| && row.ambiguousProfit == SumBy(RawProfitOf, ambiguous)
    && row.withoutOrderCount == |Filter(OrderlessOn(k), rows)|
  }

  /** `value` is what the latest dated summary of the day says. */
  ghost predicate IsSummary(value: Option<real>, k: seq<string>, summaries: seq<Summary>) {
    if exists s :: s in summaries && s.tradeDate != "" && SummaryKey(s) == k then
      exists s :: IsLatest(summaries, k, s) && value == s.value
    else value.None?
  }

  /** A trusted profit is held against a summary that has a value. */
  predicate IsDifference(difference: Option<real>, profit: real, summary: Option<real>) {
    match summary
    case None => difference.None?
    case Some(value) => difference.Some? && difference.value + value == profit
  }

  /** More than a cent apart. */
  predicate FarFrom(profit: real, summary: Option<real>) {
    summary.Some? && (profit - summary.value > 0.01 || summary.value - profit > 0.01)
  }

  /** An alarm is raised for a day exactly when its rows or its summaries give cause. */
  ghost predicate HasAlarms(row: RecRow, rows: seq<ReviewRow>) {
    && (AmbiguousFills in row.alarms <==> exists r :: r in rows && AmbiguousOn(row.key)(r))
    && (SellsWithoutOrder in row.alarms <==> exists r :: r in rows && OrderlessOn(row.key)(r))
    && (DailyMismatch in row.alarms <==> FarFrom(row.trustedProfit, row.daily))
    && (TradeMismatch in row.alarms <==> FarFrom(row.trustedProfit, row.trade))
  }

  lemma SummaryStated(summaries: seq<Summary>, k: seq<string>)
    ensures IsSummary(SummaryValue(LatestRows(summaries), k), k, summaries)
  {
    LatestRowsAreLatest(summaries, k);
  }

  lemma DaySells(rows: seq<ReviewRow>, k: seq<string>)
    ensures var sells := Group(RowDay, k, Filter(IsSell, rows));
            && Filter(Trusted, sells) == Filter(TrustedAt(RowDay, k), rows)
            && Filter(BestEffort, sells) == Filter(BestAt(RowDay, k), rows)
            && Filter(IsAmbiguous, sells) == Filter(AmbiguousOn(k), rows)
            && Filter(LacksOrder, sells) == Filter(OrderlessOn(k), rows)
  {
    GroupsStated(rows, RowDay, k);
    FilterTwice(HasKey(RowDay, k), IsSell, SellAt(RowDay, k), rows);
    FilterTwice(IsAmbiguous, SellAt(RowDay, k), AmbiguousOn(k), rows);
    FilterTwice(LacksOrder, SellAt(RowDay, k), OrderlessOn(k), rows);
  }

  lemma SomeKept<T(!new)>(p: T -> bool, s: seq<T>)
    ensures Filter(p, s) != [] <==> exists x :: x in s && p(x)
  {
    if Filter(p, s) != [] {
      assert Filter(p, s)[0] in Filter(p, s);
    }
  }

  lemma DayCounts(
    k: seq<string>, fills: seq<Fill>, rows: seq<ReviewRow>, daily: Option<real>, trade: Option<real>)
    ensures var row := Reconcile(k, Group(FillDay, k, Filter(IsSellFill, fills)),
                                 Group(RowDay, k, Filter(IsSell, rows)), daily, trade);
            CountsDay(row, fills, rows)
  {
    DaySells(rows, k);
    FilterTwice(HasKey(FillDay, k), IsSellFill, SellOn(k), fills);
    SumByAgree(RawProfit, ProfitOfFill, Filter(SellOn(k), fills));
    SumByAgree(ProfitOrZero, Amount, Filter(TrustedAt(RowDay, k), rows));
    SumByAgree(ProfitOrZero, Amount, Filter(BestAt(RowDay, k), rows));
    SumByAgree(RawOrZero, RawProfitOf, Filter(AmbiguousOn(k), rows));
  }

  lemma AlarmsStated(sells: seq<ReviewRow>, profit: real, daily: Option<real>, trade: Option<real>)
    ensures var alarms := Alarms(sells, Difference(profit, daily), Difference(profit, trade));
            && (AmbiguousFills in alarms <==> Filter(IsAmbiguous, sells) != [])
            && (SellsWithoutOrder in alarms <==> Filter(LacksOrder, sells) != [])
            && (DailyMismatch in alarms <==> FarFrom(profit, daily))
            && (TradeMismatch in alarms <==> FarFrom(profit, trade))
            && IsDifference(Difference(profit, daily), profit, daily)
            && IsDifference(Difference(profit, trade), profit, trade)
  {
  }

  lemma DayAlarms(
    k: seq<string>, fills: seq<Fill>, rows: seq<ReviewRow>, daily: Option<real>, trade: Option<real>)
    ensures var row := Reconcile(k, Group(FillDay, k, Filter(IsSellFill, fills)),
                                 Group(RowDay, k, Filter(IsSell, rows)), daily, trade);
            && HasAlarms(row, rows) && row.daily == daily && row.trade == trade
            && IsDifference(row.dailyDiff, row.trustedProfit, daily)
            && IsDifference(row.tradeDiff, row.trustedProfit, trade)
  {
    var sells := Group(RowDay, k, Filter(IsSell, rows));
    DaySells(rows, k);
    SomeKept(AmbiguousOn(k), rows);
    SomeKept(OrderlessOn(k), rows);
    AlarmsStated(sells, SumBy(ProfitOrZero, Filter(Trusted, sells)), daily, trade);
  }

  lemma {:induction false} DayCount(
    keys: seq<seq<string>>, raw: seq<Fill>, sells: seq<ReviewRow>,
    daily: map<seq<string>, Summary>, trade: map<seq<string>, Summary>)
    ensures |ReconcileDays(keys, raw, sells, daily, trade)| == |keys|
  {
    if keys != [] {
      DayCount(keys[..|keys| - 1], raw, sells, daily, trade);
    }
  }

  lemma {:induction false} DayRowAt(
    keys: seq<seq<string>>, raw: seq<Fill>, sells: seq<ReviewRow>,
    daily: map<seq<string>, Summary>, trade: map<seq<string>, Summary>, i: nat)
    requires i < |keys| == |ReconcileDays(keys, raw, sells, daily, trade)|
    ensures ReconcileDays(keys, raw, sells, daily, trade)[i]
         == ReconcileDay(keys[i], raw, sells, daily, trade)
  {
    var front := keys[..|keys| - 1];
    DayCount(front, raw, sells, daily, trade);
    if i < |front| {
      DayRowAt(front, raw, sells, daily, trade, i);
    }
  }

  /**
   * Each reconciled day counts and totals its raw, trusted, best-effort, ambiguous and orderless
   * sells, holds the trusted profit against the latest summaries of the day, and raises an alarm
   * exactly when that is more than a cent off or some sell is ambiguous or without an order.
   */
  lemma DaysStated(
    fills: seq<Fill>, rows: seq<ReviewRow>, daily: seq<Summary>, trade: seq<Summary>, i: nat)
    requires i < |ReconciliationTable(fills, rows, daily, trade)|
    ensures var row := ReconciliationTable(fills, rows, daily, trade)[i];
            && CountsDay(row, fills, rows) && HasAlarms(row, rows)
            && IsSummary(row.daily, row.key, daily) && IsSummary(row.trade, row.key, trade)
            && IsDifference(row.dailyDiff, row.trustedProfit, row.daily)
            && IsDifference(row.tradeDiff, row.trustedProfit, row.trade)
  {
    var raw, sells := Filter(IsSellFill, fills), Filter(IsSell, rows);
    var keys := S.Sort(TupleLeq, Days(raw, sells, daily, trade));
    var latest, totals := LatestRows(daily), LatestRows(trade);
    DayCount(keys, raw, sells, latest, totals);
    DayRowAt(keys, raw, sells, latest, totals, i);
    DayCounts(keys[i], fills, rows, SummaryValue(latest, keys[i]), SummaryValue(totals, keys[i]));
    DayAlarms(keys[i], fills, rows, SummaryValue(latest, keys[i]), SummaryValue(totals, keys[i]));
    SummaryStated(daily, keys[i]);
    SummaryStated(trade, keys[i]);
  }

  /** The comparison passes on the two mismatches and nothing else, whenever a day has one. */
  lemma {:induction false} RaisedStated(table: seq<RecRow>, start: set<Alarm>, a: Alarm)
    ensures a in TableAlarms(table, start)
       <==> a in start
            || ((a.DailyMismatch? || a.TradeMismatch?) && exists row :: row in table && a in row.alarms)
  {
    if table != [] {
      var front, last := table[..|table| - 1], table[|table| - 1];
      RaisedStated(front, start, a);
      assert table == front + [last];
    }
  }
}
