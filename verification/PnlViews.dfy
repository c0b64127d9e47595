/** Profit by day, ticker and exit reason: different groupings of the same trusted sells. */
module PnlViews {
  import opened Common
  import opened ExitMatching
  import opened FillReader
  import opened Grouping
  import opened Sorting

  // ---- which rows count ------------------------------------------------------

  predicate IsSell(r: ReviewRow) { r.row.side.Sell? }

  predicate Trusted(r: ReviewRow) { r.row.decision.confidence.High? && !r.row.ExcludedTrusted() }

  predicate BestEffort(r: ReviewRow) {
    !r.row.decision.reading.AmbiguousExcluded? && !r.row.excludedBest
  }

  function Profit(r: ReviewRow): Option<real> { r.row.metrics.profit }

  function Rate(r: ReviewRow): Option<real> { r.row.metrics.profitRate }

  function TrustedSellProfit(r: ReviewRow): real {
    if IsSell(r) && Trusted(r) then Profit(r).GetOr(0.0) else 0.0
  }

  function BestSellProfit(r: ReviewRow): real {
    if IsSell(r) && BestEffort(r) then Profit(r).GetOr(0.0) else 0.0
  }

  predicate CountsTrusted(r: ReviewRow) { IsSell(r) && Trusted(r) && Profit(r).Some? }

  predicate CountsBest(r: ReviewRow) { IsSell(r) && BestEffort(r) && Profit(r).Some? }

  /** One for each sell that counts as trusted. */
  function TrustedSell(r: ReviewRow): real { if CountsTrusted(r) then 1.0 else 0.0 }

  function BestSell(r: ReviewRow): real { if CountsBest(r) then 1.0 else 0.0 }

  /** A group is trusted exactly when nothing excludes it, and then it is best-effort too. */
  lemma TrustedIsBestEffort(
    key: GroupKey, rows: seq<Fill>, evidence: map<OrderKey, set<int>>, crossIds: set<string>,
    exit: ExitMatch)
    requires rows != []
    ensures var r := ReviewRow(NormalizeGroup(key, rows, evidence, crossIds), exit);
            && (Trusted(r) ==> BestEffort(r))
            && (Trusted(r) && IsSell(r) ==> Profit(r).Some?)
            && (Trusted(r) ==> r.row.TrustedProfit() == r.row.BestEffortProfit() == Profit(r))
            && (BestEffort(r) && !Trusted(r) ==> r.row.decision.confidence.Medium?
                                                 || r.row.decision.confidence.Low?)
  {
    PutKeepsRows(rows);
    var values := GroupEvidence(rows, evidence);
    DecisionConfidence(rows, UniqueRows(rows), values, crossIds);
  }

  /** A best-effort sell has a known profit. */
  lemma BestSellsArePriced(
    key: GroupKey, rows: seq<Fill>, evidence: map<OrderKey, set<int>>, crossIds: set<string>,
    exit: ExitMatch)
    requires rows != []
    ensures var r := ReviewRow(NormalizeGroup(key, rows, evidence, crossIds), exit);
            IsSell(r) && BestEffort(r) ==> Profit(r).Some?
  {
    PutKeepsRows(rows);
  }

  /** Only an excluded reading has no confidence. */
  lemma DecisionConfidence(
    rows: seq<Fill>, unique: seq<Fill>, evidenceValues: set<int>, crossIds: set<string>)
    requires rows != [] && unique != []
    ensures var d := Decide(rows, unique, evidenceValues, crossIds);
            d.confidence.NoConfidence? <==> d.reading.AmbiguousExcluded?
  {
  }

  // ---- metrics ---------------------------------------------------------------

  datatype Figures = Figures(
    sellCount: nat, total: real, average: Option<real>, winCount: nat, lossCount: nat,
    winRate: Option<real>, averageWin: Option<real>, averageLoss: Option<real>,
    profitFactor: Option<real>, maxWin: Option<real>, maxLoss: Option<real>,
    averageRate: Option<real>)

  function Known(values: seq<Option<real>>): seq<real> {
    if values == [] then []
    else if values[0].Some? then [values[0].value] + Known(values[1..])
    else Known(values[1..])
  }

  function Same(x: real): real { x }

  function Total(values: seq<real>): real { SumBy(Same, values) }

  predicate Positive(x: real) { x > 0.0 }

  predicate Negative(x: real) { x < 0.0 }

  function Mean(values: seq<real>): Option<real> {
    if values == [] then None else Some(Total(values) / |values| as real)
  }

  function Greatest(values: seq<real>): Option<real> {
    if values == [] then None
    else Some(MaxReal(values[0], Greatest(values[1..]).GetOr(values[0])))
  }

  function Least(values: seq<real>): Option<real> {
    if values == [] then None
    else Some(MinReal(values[0], Least(values[1..]).GetOr(values[0])))
  }

  function ProfitFigures(rows: seq<ReviewRow>): Figures {
    FiguresOf(Known(Map(Profit, rows)), Known(Map(Rate, rows)))
  }

  function FiguresOf(profits: seq<real>, rates: seq<real>): Figures {
    var wins, losses := Filter(Positive, profits), Filter(Negative, profits);
    Figures(
      |profits|, Total(profits), Mean(profits), |wins|, |losses|,
      if profits == [] then None else Some(|wins| as real / |profits| as real),
      Mean(wins), Mean(losses),
      if Total(losses) < 0.0 then Some(Total(wins) / -Total(losses)) else None,
      Greatest(wins), Least(losses), Mean(rates))
  }

  lemma {:induction false} WinsAndLosses(values: seq<real>)
    ensures var wins, losses := Filter(Positive, values), Filter(Negative, values);
            && Total(values) == Total(wins) + Total(losses)
            && Total(wins) >= 0.0 && Total(losses) <= 0.0
            && |wins| + |losses| <= |values|
            && (losses == [] <==> Total(losses) == 0.0)
  {
    if values != [] {
      WinsAndLosses(values[1..]);
      var wins, losses := Filter(Positive, values[1..]), Filter(Negative, values[1..]);
      assert ([values[0]] + wins)[1..] == wins;
      assert ([values[0]] + losses)[1..] == losses;
    }
  }

  function Times(x: real, n: int): real { x * n as real }

  /** The reported figures fit together: averages times counts give the totals back. */
  lemma FiguresBalance(rows: seq<ReviewRow>)
    ensures var f := ProfitFigures(rows);
            && f.winCount + f.lossCount <= f.sellCount
            && (f.average.Some? <==> f.sellCount > 0)
            && Times(f.average.GetOr(0.0), f.sellCount) == f.total
            && f.total == Times(f.averageWin.GetOr(0.0), f.winCount)
                          + Times(f.averageLoss.GetOr(0.0), f.lossCount)
            && (f.profitFactor.Some? <==> f.lossCount > 0)
            && (f.profitFactor.Some? ==> (f.profitFactor.value > 1.0 <==> f.total > 0.0))
  {
    var profits := Known(Map(Profit, rows));
    var wins, losses := Filter(Positive, profits), Filter(Negative, profits);
    WinsAndLosses(profits);
    MeanTimesCount(profits);
    MeanTimesCount(wins);
    MeanTimesCount(losses);
    if losses != [] {
      QuotientAboveOne(Total(wins), -Total(losses));
    }
  }

  lemma MeanTimesCount(values: seq<real>)
    ensures Times(Mean(values).GetOr(0.0), |values|) == Total(values)
    ensures Mean(values).Some? <==> |values| > 0
  {
  }

  lemma QuotientAboveOne(a: real, b: real)
    requires b > 0.0
    ensures a / b > 1.0 <==> a - b > 0.0
  {
    assert a == (a / b) * b;
    if a / b > 1.0 { assert (a / b) * b > 1.0 * b; }
    if a / b <= 1.0 { assert (a / b) * b <= 1.0 * b; }
  }

  // ---- one view --------------------------------------------------------------

  datatype ViewRow = ViewRow(key: seq<string>, trusted: Figures, best: Figures)

  function OrUnknown(text: string): string { if text == "" then "UNKNOWN" else text }

  function Mode(isMock: Option<bool>): string {
    match isMock
    case None => "UNKNOWN"
    case Some(mock) => if mock then "MOCK" else "REAL"
  }

  function ByDay(r: ReviewRow): seq<string> { [OrUnknown(r.row.tradeDate), Mode(r.row.isMock)] }

  function ByTicker(r: ReviewRow): seq<string> { [OrUnknown(r.row.ticker), Mode(r.row.isMock)] }

  function ByExitReason(r: ReviewRow): seq<string> {
    [OrUnknown(r.row.tradeDate), Mode(r.row.isMock), OrUnknown(r.exit.exitReason)]
  }

  /** Tuples of texts compare field by field. */
  predicate TupleLeq(a: seq<string>, b: seq<string>) {
    if a == [] then true
    else if b == [] then false
    else if a[0] != b[0] then TextLeq(a[0], b[0])
    else TupleLeq(a[1..], b[1..])
  }

  lemma {:induction false} TupleLeqTotal(a: seq<string>, b: seq<string>)
    ensures TupleLeq(a, b) || TupleLeq(b, a)
  {
    if a != [] && b != [] {
      TextLeqTotal(a[0], b[0]);
      TupleLeqTotal(a[1..], b[1..]);
    }
  }

  lemma {:induction false} TupleLeqTransitive(a: seq<string>, b: seq<string>, c: seq<string>)
    requires TupleLeq(a, b) && TupleLeq(b, c)
    ensures TupleLeq(a, c)
  {
    if a != [] && b != [] && c != [] {
      if a[0] == b[0] == c[0] {
        TupleLeqTransitive(a[1..], b[1..], c[1..]);
      } else {
        TextLeqReflexive(b[0]);
        TextLeqTransitive(a[0], b[0], c[0]);
        if a[0] == c[0] { TextLeqAntisymmetric(a[0], b[0]); }
      }
    }
  }

  lemma TupleOrderTotal()
    ensures Sorting.Total(TupleLeq)
  {
    forall a, b ensures TupleLeq(a, b) || TupleLeq(b, a) { TupleLeqTotal(a, b); }
    forall a, b, c | TupleLeq(a, b) && TupleLeq(b, c) ensures TupleLeq(a, c) {
      TupleLeqTransitive(a, b, c);
    }
  }

  function ViewKeys(rows: seq<ReviewRow>, key: ReviewRow -> seq<string>): seq<seq<string>> {
    Sort(TupleLeq, KeysOf(key, Filter(IsSell, rows)))
  }

  predicate Shown(group: seq<ReviewRow>) {
    Filter(Trusted, group) != [] || Filter(BestEffort, group) != []
  }

  function RowFor(key: seq<string>, group: seq<ReviewRow>): ViewRow {
    ViewRow(key, ProfitFigures(Filter(Trusted, group)), ProfitFigures(Filter(BestEffort, group)))
  }

  /** One row per group that has a trusted or best-effort sell. */
  function ViewOver(
    sells: seq<ReviewRow>, key: ReviewRow -> seq<string>, keys: seq<seq<string>>): seq<ViewRow>
  {
    if keys == [] then []
    else
      var front, last := keys[..|keys| - 1], keys[|keys| - 1];
      var group := Group(key, last, sells);
      ViewOver(sells, key, front) + if Shown(group) then [RowFor(last, group)] else []
  }

  function View(rows: seq<ReviewRow>, key: ReviewRow -> seq<string>): seq<ViewRow> {
    ViewOver(Filter(IsSell, rows), key, ViewKeys(rows, key))
  }

  lemma ViewOverStep(
    sells: seq<ReviewRow>, key: ReviewRow -> seq<string>, keys: seq<seq<string>>, i: nat)
    requires i < |keys|
    ensures var group := Group(key, keys[i], sells);
            ViewOver(sells, key, keys[..i + 1])
            == ViewOver(sells, key, keys[..i]) + if Shown(group) then [RowFor(keys[i], group)] else []
  {
    assert keys[..i + 1][..i] == keys[..i];
  }

  method ViewRows(
    ghost sells: seq<ReviewRow>, ghost key: ReviewRow -> seq<string>, keys: seq<seq<string>>,
    groups: map<seq<string>, seq<ReviewRow>>) returns (result: seq<ViewRow>)
    requires forall k :: k in keys ==> k in groups && groups[k] == Group(key, k, sells)
    ensures result == ViewOver(sells, key, keys)
  {
    result := [];
    for i := 0 to |keys|
      invariant result == ViewOver(sells, key, keys[..i])
    {
      assert keys[i] in keys;
      ViewOverStep(sells, key, keys, i);
      var group := groups[keys[i]];
      if !Shown(group) {
        continue;
      }
      result := result + [RowFor(keys[i], group)];
    }
    assert keys[..|keys|] == keys;
  }

  method AggregateFillPnl(rows: seq<ReviewRow>, key: ReviewRow -> seq<string>)
    returns (result: seq<ViewRow>)
    ensures result == View(rows, key)
  {
    var sells := Filter(IsSell, rows);
    var groups, order := GroupInto(key, sells);
    TupleOrderTotal();
    SortSorts(TupleLeq, order);
    result := ViewRows(sells, key, Sort(TupleLeq, order), groups);
  }

  // ---- grand totals ----------------------------------------------------------

  /** A column of a view, added up. */
  function Grand(view: seq<ViewRow>, column: ViewRow -> real): real {
    if view == [] then 0.0
    else Grand(view[..|view| - 1], column) + column(view[|view| - 1])
  }

  function TrustedTotal(v: ViewRow): real { v.trusted.total }

  function BestTotal(v: ViewRow): real { v.best.total }

  function TrustedCount(v: ViewRow): real { v.trusted.sellCount as real }

  function BestCount(v: ViewRow): real { v.best.sellCount as real }

  lemma {:induction false} KnownTotal(rows: seq<ReviewRow>, value: ReviewRow -> real)
    requires forall r :: r in rows ==> value(r) == Profit(r).GetOr(0.0)
    ensures Total(Known(Map(Profit, rows))) == SumBy(value, rows)
  {
    if rows != [] {
      KnownTotal(rows[1..], value);
      assert Map(Profit, rows)[1..] == Map(Profit, rows[1..]);
      var rest := Known(Map(Profit, rows[1..]));
      assert Profit(rows[0]).Some? ==> ([Profit(rows[0]).value] + rest)[1..] == rest;
    }
  }

  lemma {:induction false} KnownCount(rows: seq<ReviewRow>, value: ReviewRow -> real)
    requires forall r :: r in rows ==> value(r) == if Profit(r).Some? then 1.0 else 0.0
    ensures |Known(Map(Profit, rows))| as real == SumBy(value, rows)
  {
    if rows != [] {
      KnownCount(rows[1..], value);
      assert Map(Profit, rows)[1..] == Map(Profit, rows[1..]);
    }
  }

  lemma {:induction false} FilteredTotal(
    rows: seq<ReviewRow>, keep: ReviewRow -> bool, value: ReviewRow -> real)
    requires forall r :: r in rows && !keep(r) ==> value(r) == 0.0
    ensures SumBy(value, Filter(keep, rows)) == SumBy(value, rows)
  {
    if rows != [] {
      FilteredTotal(rows[1..], keep, value);
      var rest := Filter(keep, rows[1..]);
      assert ([rows[0]] + rest)[1..] == rest;
    }
  }

  /** Figures over the kept sells of a group total the group's value. */
  lemma FiguresTotal(group: seq<ReviewRow>, keep: ReviewRow -> bool, value: ReviewRow -> real)
    requires forall r :: r in group ==> value(r) == if keep(r) then Profit(r).GetOr(0.0) else 0.0
    ensures ProfitFigures(Filter(keep, group)).total == SumBy(value, group)
  {
    KnownTotal(Filter(keep, group), value);
    FilteredTotal(group, keep, value);
  }

  lemma FiguresCount(group: seq<ReviewRow>, keep: ReviewRow -> bool, value: ReviewRow -> real)
    requires forall r :: r in group ==> value(r) == if keep(r) && Profit(r).Some? then 1.0 else 0.0
    ensures ProfitFigures(Filter(keep, group)).sellCount as real == SumBy(value, group)
  {
    KnownCount(Filter(keep, group), value);
    FilteredTotal(group, keep, value);
  }

  /** What a column of a view row says of its group: the group's sum of a value. */
  ghost predicate AddsFor(
    column: ViewRow -> real, value: ReviewRow -> real, key: seq<string>, group: seq<ReviewRow>)
  {
    && column(RowFor(key, group)) == SumBy(value, group)
    && (!Shown(group) ==> SumBy(value, group) == 0.0)
  }

  ghost predicate AllSells(rows: seq<ReviewRow>) { forall r :: r in rows ==> IsSell(r) }

  ghost predicate Adds(column: ViewRow -> real, value: ReviewRow -> real) {
    && (forall r :: !IsSell(r) ==> value(r) == 0.0)
    && forall key, group :: AllSells(group) ==> AddsFor(column, value, key, group)
  }

  lemma EmptyFigures(rows: seq<ReviewRow>)
    requires rows == []
    ensures ProfitFigures(rows).total == 0.0 && ProfitFigures(rows).sellCount == 0
  {
  }

  lemma GroupAddsUp(key: seq<string>, group: seq<ReviewRow>)
    requires AllSells(group)
    ensures AddsFor(TrustedTotal, TrustedSellProfit, key, group)
    ensures AddsFor(BestTotal, BestSellProfit, key, group)
    ensures AddsFor(TrustedCount, TrustedSell, key, group)
    ensures AddsFor(BestCount, BestSell, key, group)
  {
    FiguresTotal(group, Trusted, TrustedSellProfit);
    FiguresTotal(group, BestEffort, BestSellProfit);
    FiguresCount(group, Trusted, TrustedSell);
    FiguresCount(group, BestEffort, BestSell);
    if !Shown(group) {
      EmptyFigures(Filter(Trusted, group));
      EmptyFigures(Filter(BestEffort, group));
    }
  }

  lemma ColumnsAdd()
    ensures Adds(TrustedTotal, TrustedSellProfit) && Adds(BestTotal, BestSellProfit)
    ensures Adds(TrustedCount, TrustedSell) && Adds(BestCount, BestSell)
  {
    forall key, group | AllSells(group)
      ensures AddsFor(TrustedTotal, TrustedSellProfit, key, group)
      ensures AddsFor(BestTotal, BestSellProfit, key, group)
      ensures AddsFor(TrustedCount, TrustedSell, key, group)
      ensures AddsFor(BestCount, BestSell, key, group)
    {
      GroupAddsUp(key, group);
    }
  }

  lemma GrandStep(
    view: seq<ViewRow>, key: seq<string>, group: seq<ReviewRow>, column: ViewRow -> real,
    value: ReviewRow -> real)
    requires AddsFor(column, value, key, group)
    ensures Grand(view + if Shown(group) then [RowFor(key, group)] else [], column)
            == Grand(view, column) + SumBy(value, group)
  {
    assert (view + [RowFor(key, group)])[..|view|] == view && view + [] == view;
  }

  lemma {:induction false} ViewOverTotal(
    sells: seq<ReviewRow>, key: ReviewRow -> seq<string>, keys: seq<seq<string>>,
    column: ViewRow -> real, value: ReviewRow -> real)
    requires AllSells(sells) && Adds(column, value)
    ensures Grand(ViewOver(sells, key, keys), column) == GroupTotal(key, value, sells, keys)
  {
    if keys != [] {
      var front, last := keys[..|keys| - 1], keys[|keys| - 1];
      ViewOverTotal(sells, key, front, column, value);
      assert AllSells(Group(key, last, sells));
      GrandStep(ViewOver(sells, key, front), last, Group(key, last, sells), column, value);
      GroupTotalAppend(key, value, sells, front, last);
      assert keys == front + [last];
    }
  }

  lemma ViewTotal(
    rows: seq<ReviewRow>, key: ReviewRow -> seq<string>, column: ViewRow -> real,
    value: ReviewRow -> real)
    requires Adds(column, value)
    ensures Grand(View(rows, key), column) == SumBy(value, rows)
  {
    var sells, keys := Filter(IsSell, rows), ViewKeys(rows, key);
    KeysOfFacts(key, sells);
    TupleOrderTotal();
    SortSorts(TupleLeq, KeysOf(key, sells));
    PermutedNoDuplicates(KeysOf(key, sells), keys);
    ViewOverTotal(sells, key, keys, column, value);
    GroupingKeepsRows(key, value, sells, keys);
    FilteredTotal(rows, IsSell, value);
  }

  lemma {:induction false} OnesCount(
    ones: ReviewRow -> real, p: ReviewRow -> bool, rows: seq<ReviewRow>)
    requires forall r :: ones(r) == if p(r) then 1.0 else 0.0
    ensures SumBy(ones, rows) == CountBy(p, rows) as real
  {
    if rows != [] {
      OnesCount(ones, p, rows[1..]);
    }
  }

  /** The view adds up to the trusted and best-effort sells of the rows: their profit and their number. */
  ghost predicate AddsUp(view: seq<ViewRow>, rows: seq<ReviewRow>) {
    && Grand(view, TrustedTotal) == SumBy(TrustedSellProfit, rows)
    && Grand(view, BestTotal) == SumBy(BestSellProfit, rows)
    && Grand(view, TrustedCount) == CountBy(CountsTrusted, rows) as real
    && Grand(view, BestCount) == CountBy(CountsBest, rows) as real
  }

  /** Whatever key the view groups by; groups left out of the view carry nothing. */
  lemma ViewAddsUp(rows: seq<ReviewRow>, key: ReviewRow -> seq<string>)
    ensures AddsUp(View(rows, key), rows)
  {
    ColumnsAdd();
    ViewTotal(rows, key, TrustedTotal, TrustedSellProfit);
    ViewTotal(rows, key, BestTotal, BestSellProfit);
    ViewTotal(rows, key, TrustedCount, TrustedSell);
    ViewTotal(rows, key, BestCount, BestSell);
    OnesCount(TrustedSell, CountsTrusted, rows);
    OnesCount(BestSell, CountsBest, rows);
  }

  ghost predicate SameTotals(v: seq<ViewRow>, w: seq<ViewRow>) {
    && Grand(v, TrustedTotal) == Grand(w, TrustedTotal) && Grand(v, BestTotal) == Grand(w, BestTotal)
    && Grand(v, TrustedCount) == Grand(w, TrustedCount) && Grand(v, BestCount) == Grand(w, BestCount)
  }

  /** The day, ticker and exit-reason views agree on both profits and both counts. */
  lemma ViewsAgree(rows: seq<ReviewRow>)
    ensures SameTotals(View(rows, ByDay), View(rows, ByTicker))
    ensures SameTotals(View(rows, ByDay), View(rows, ByExitReason))
  {
    ViewAddsUp(rows, ByDay);
    ViewAddsUp(rows, ByTicker);
    ViewAddsUp(rows, ByExitReason);
  }

  // ---- exit matching ---------------------------------------------------------

  /** The rows differ in their exits at most. */
  ghost predicate SameRows(a: seq<ReviewRow>, b: seq<ReviewRow>) {
    |a| == |b| && forall i :: 0 <= i < |a| ==> a[i].row == b[i].row
  }

  /** A test, key or value that does not look at the exit. */
  ghost predicate IgnoresExit<T(!new)>(f: ReviewRow -> T) {
    forall a: ReviewRow, b: ReviewRow :: a.row == b.row ==> f(a) == f(b)
  }

  lemma {:induction false} SameFiltered(p: ReviewRow -> bool, a: seq<ReviewRow>, b: seq<ReviewRow>)
    requires IgnoresExit(p) && SameRows(a, b)
    ensures SameRows(Filter(p, a), Filter(p, b))
  {
    if a != [] {
      SameFiltered(p, a[1..], b[1..]);
    }
  }

  lemma SameMapped<T(!new)>(f: ReviewRow -> T, a: seq<ReviewRow>, b: seq<ReviewRow>)
    requires IgnoresExit(f) && SameRows(a, b)
    ensures Map(f, a) == Map(f, b)
  {
    assert forall i :: 0 <= i < |a| ==> f(a[i]) == f(b[i]);
  }

  lemma {:induction false} SameSum(f: ReviewRow -> real, a: seq<ReviewRow>, b: seq<ReviewRow>)
    requires IgnoresExit(f) && SameRows(a, b)
    ensures SumBy(f, a) == SumBy(f, b)
  {
    if a != [] {
      SameSum(f, a[1..], b[1..]);
    }
  }

  lemma SameFigures(p: ReviewRow -> bool, a: seq<ReviewRow>, b: seq<ReviewRow>)
    requires IgnoresExit(p) && SameRows(a, b)
    ensures Filter(p, a) == [] <==> Filter(p, b) == []
    ensures ProfitFigures(Filter(p, a)) == ProfitFigures(Filter(p, b))
  {
    SameFiltered(p, a, b);
    SameMapped(Profit, Filter(p, a), Filter(p, b));
    SameMapped(Rate, Filter(p, a), Filter(p, b));
  }

  lemma SameGroup(
    a: seq<ReviewRow>, b: seq<ReviewRow>, key: ReviewRow -> seq<string>, k: seq<string>)
    requires IgnoresExit(key) && SameRows(a, b)
    ensures Shown(Group(key, k, a)) == Shown(Group(key, k, b))
    ensures RowFor(k, Group(key, k, a)) == RowFor(k, Group(key, k, b))
  {
    SameFiltered(HasKey(key, k), a, b);
    SameFigures(Trusted, Group(key, k, a), Group(key, k, b));
    SameFigures(BestEffort, Group(key, k, a), Group(key, k, b));
  }

  lemma {:induction false} SameViewOver(
    a: seq<ReviewRow>, b: seq<ReviewRow>, key: ReviewRow -> seq<string>, keys: seq<seq<string>>)
    requires IgnoresExit(key) && SameRows(a, b)
    ensures ViewOver(a, key, keys) == ViewOver(b, key, keys)
  {
    if keys != [] {
      SameViewOver(a, b, key, keys[..|keys| - 1]);
      SameGroup(a, b, key, keys[|keys| - 1]);
    }
  }

  lemma SameView(a: seq<ReviewRow>, b: seq<ReviewRow>, key: ReviewRow -> seq<string>)
    requires IgnoresExit(key) && SameRows(a, b)
    ensures View(a, key) == View(b, key)
  {
    SameFiltered(IsSell, a, b);
    SameMapped(key, Filter(IsSell, a), Filter(IsSell, b));
    SameViewOver(Filter(IsSell, a), Filter(IsSell, b), key, ViewKeys(a, key));
  }

  /** Whatever adds up for some rows adds up for the same rows with other exits. */
  lemma SameAddsUp(view: seq<ViewRow>, a: seq<ReviewRow>, b: seq<ReviewRow>)
    requires SameRows(a, b) && AddsUp(view, b)
    ensures AddsUp(view, a)
  {
    SameSum(TrustedSellProfit, a, b);
    SameSum(BestSellProfit, a, b);
    SameSum(TrustedSell, a, b);
    SameSum(BestSell, a, b);
    OnesCount(TrustedSell, CountsTrusted, a);
    OnesCount(TrustedSell, CountsTrusted, b);
    OnesCount(BestSell, CountsBest, a);
    OnesCount(BestSell, CountsBest, b);
  }

  /**
   * Whatever trades the rows are matched with, the day and ticker views are the same, and the
   * exit-reason view adds up to the same profits and counts: matching only moves sells between
   * exit reasons.
   */
  lemma ExitsOnlyMoveSells(
    rows: seq<Normalized>, trades: seq<Trade>, trades': seq<Trade>, clock: string -> Option<Seconds>,
    matched: seq<ReviewRow>, matched': seq<ReviewRow>)
    requires IsMatched(matched, rows, trades, clock) && IsMatched(matched', rows, trades', clock)
    ensures View(matched, ByDay) == View(matched', ByDay)
    ensures View(matched, ByTicker) == View(matched', ByTicker)
    ensures SameTotals(View(matched, ByExitReason), View(matched', ByExitReason))
  {
    assert SameRows(matched, matched');
    SameView(matched, matched', ByDay);
    SameView(matched, matched', ByTicker);
    ViewAddsUp(matched, ByExitReason);
    ViewAddsUp(matched', ByExitReason);
    SameAddsUp(View(matched', ByExitReason), matched, matched');
  }
}
