/** Compares raw and normalized sells with the stored day summaries, one row per date and mode. */
module Reconciliation {
  import opened Common
  import opened ExitMatching
  import opened FillReader
  import opened FillReview
  import opened Grouping
  import opened PnlViews
  import opened Sorting
  import opened SourceOrder

  /** A stored day summary; `sort` is its update time, id and canonical text. */
  datatype Summary = Summary(
    tradeDate: string, isMock: Option<bool>, value: Option<real>, sort: SortKey)

  datatype Alarm = AmbiguousFills | SellsWithoutOrder | DailyMismatch | TradeMismatch

  datatype RecRow = RecRow(
    key: seq<string>, rawCount: nat, trustedCount: nat, bestCount: nat, rawProfit: real,
    trustedProfit: real, bestProfit: real, ambiguousCount: nat, ambiguousProfit: real,
    withoutOrderCount: nat, daily: Option<real>, trade: Option<real>, dailyDiff: Option<real>,
    tradeDiff: Option<real>, alarms: set<Alarm>)

  const MONEY_TOLERANCE: real := 0.01

  function SummaryKey(s: Summary): seq<string> { [s.tradeDate, Mode(s.isMock)] }

  function FillDay(f: Fill): seq<string> { [f.tradeDate, Mode(f.isMock)] }

  function RowDay(r: ReviewRow): seq<string> { [r.row.tradeDate, Mode(r.row.isMock)] }

  // ---- the latest summary per day --------------------------------------------

  function LatestRows(rows: seq<Summary>): map<seq<string>, Summary> {
    if rows == [] then map[]
    else
      var latest, row := LatestRows(rows[..|rows| - 1]), rows[|rows| - 1];
      var key := SummaryKey(row);
      if row.tradeDate != "" && (key !in latest || !KeyLeq(row.sort, latest[key].sort))
      then latest[key := row] else latest
  }

  method LatestSummary(rows: seq<Summary>) returns (latest: map<seq<string>, Summary>)
    ensures latest == LatestRows(rows)
  {
    latest := map[];
    for i := 0 to |rows|
      invariant latest == LatestRows(rows[..i])
    {
      assert rows[..i + 1][..i] == rows[..i];
      var key := SummaryKey(rows[i]);
      if rows[i].tradeDate != "" && (key !in latest || !KeyLeq(rows[i].sort, latest[key].sort)) {
        latest := latest[key := rows[i]];
      }
    }
    assert rows[..|rows|] == rows;
  }

  /** The kept summary of a day is one of its dated rows and no row of that day is later. */
  ghost predicate IsLatest(rows: seq<Summary>, key: seq<string>, s: Summary) {
    && s in rows && s.tradeDate != "" && SummaryKey(s) == key
    && forall r :: r in rows && r.tradeDate != "" && SummaryKey(r) == key ==> KeyLeq(r.sort, s.sort)
  }

  lemma {:induction false} LatestRowsAreLatest(rows: seq<Summary>, key: seq<string>)
    ensures key in LatestRows(rows)
       <==> exists r :: r in rows && r.tradeDate != "" && SummaryKey(r) == key
    ensures key in LatestRows(rows) ==> IsLatest(rows, key, LatestRows(rows)[key])
  {
    if rows != [] {
      var front, last := rows[..|rows| - 1], rows[|rows| - 1];
      LatestRowsAreLatest(front, key);
      assert forall r :: r in rows <==> r in front || r == last;
      KeyLeqTotal(last.sort, last.sort);
      if key in LatestRows(front) {
        var kept := LatestRows(front)[key];
        KeyLeqTotal(last.sort, kept.sort);
        if last.tradeDate != "" && SummaryKey(last) == key && !KeyLeq(last.sort, kept.sort) {
          forall r | r in front && r.tradeDate != "" && SummaryKey(r) == key
            ensures KeyLeq(r.sort, last.sort)
          {
            KeyLeqTransitive(r.sort, kept.sort, last.sort);
          }
        }
      }
    }
  }

  ghost predicate SummariesFaithful(rows: seq<Summary>) {
    forall a, b :: a in rows && b in rows && a.sort.raw == b.sort.raw ==> a == b
  }

  /** Which summary is latest does not depend on the order the rows arrive in. */
  lemma LatestIgnoresOrder(a: seq<Summary>, b: seq<Summary>)
    requires (forall s :: s in a <==> s in b) && SummariesFaithful(a)
    ensures LatestRows(a) == LatestRows(b)
  {
    var left, right := LatestRows(a), LatestRows(b);
    forall key ensures key in left <==> key in right
      ensures key in left ==> left[key] == right[key]
    {
      LatestRowsAreLatest(a, key);
      LatestRowsAreLatest(b, key);
      if key in left && key in right {
        KeyTies(left[key].sort, right[key].sort);
      }
    }
  }

  // ---- one reconciled day ----------------------------------------------------

  function ProfitOrZero(r: ReviewRow): real { Profit(r).GetOr(0.0) }

  function RawOrZero(r: ReviewRow): real { r.row.rawProfit }

  predicate IsAmbiguous(r: ReviewRow) { r.row.decision.reading.AmbiguousExcluded? }

  predicate LacksOrder(r: ReviewRow) { r.row.decision.reading.NoOrderNoFallback? }

  function Difference(profit: real, summary: Option<real>): Option<real> {
    if summary.Some? then Some(profit - summary.value) else None
  }

  predicate Mismatch(difference: Option<real>) {
    difference.Some? && (difference.value > MONEY_TOLERANCE || -difference.value > MONEY_TOLERANCE)
  }

  function Alarms(sells: seq<ReviewRow>, daily: Option<real>, trade: Option<real>): set<Alarm> {
    (if Filter(IsAmbiguous, sells) != [] then {AmbiguousFills} else {})
    + (if Filter(LacksOrder, sells) != [] then {SellsWithoutOrder} else {})
    + (if Mismatch(daily) then {DailyMismatch} else {})
    + (if Mismatch(trade) then {TradeMismatch} else {})
  }

  function Reconcile(
    key: seq<string>, raw: seq<Fill>, sells: seq<ReviewRow>, daily: Option<real>, trade: Option<real>)
    : RecRow
  {
    var trusted, best := Filter(Trusted, sells), Filter(BestEffort, sells);
    var ambiguous := Filter(IsAmbiguous, sells);
    var profit := SumBy(ProfitOrZero, trusted);
    var dailyDiff, tradeDiff := Difference(profit, daily), Difference(profit, trade);
    RecRow(
      key, |raw|, |trusted|, |best|, SumBy(RawProfit, raw), profit, SumBy(ProfitOrZero, best),
      |ambiguous|, SumBy(RawOrZero, ambiguous), |Filter(LacksOrder, sells)|, daily, trade,
      dailyDiff, tradeDiff, Alarms(sells, dailyDiff, tradeDiff))
  }

  function SummaryValue(latest: map<seq<string>, Summary>, key: seq<string>): Option<real> {
    if key in latest then latest[key].value else None
  }

  // ---- the whole table -------------------------------------------------------

  predicate IsSellFill(f: Fill) { f.side.Sell? }

  predicate Dated(s: Summary) { s.tradeDate != "" }

  /** Every day that any of the four inputs mentions. */
  function Days(
    raw: seq<Fill>, sells: seq<ReviewRow>, daily: seq<Summary>, trade: seq<Summary>)
    : seq<seq<string>>
  {
    Distinct(Map(FillDay, raw) + Map(RowDay, sells)
             + Map(SummaryKey, Filter(Dated, daily)) + Map(SummaryKey, Filter(Dated, trade)))
  }

  function ReconcileDay(
    key: seq<string>, raw: seq<Fill>, sells: seq<ReviewRow>,
    daily: map<seq<string>, Summary>, trade: map<seq<string>, Summary>): RecRow
  {
    Reconcile(key, Group(FillDay, key, raw), Group(RowDay, key, sells),
      SummaryValue(daily, key), SummaryValue(trade, key))
  }

  function ReconcileDays(
    keys: seq<seq<string>>, raw: seq<Fill>, sells: seq<ReviewRow>,
    daily: map<seq<string>, Summary>, trade: map<seq<string>, Summary>): seq<RecRow>
  {
    if keys == [] then []
    else
      ReconcileDays(keys[..|keys| - 1], raw, sells, daily, trade)
        + [ReconcileDay(keys[|keys| - 1], raw, sells, daily, trade)]
  }

  function ReconciliationTable(
    fills: seq<Fill>, rows: seq<ReviewRow>, daily: seq<Summary>, trade: seq<Summary>): seq<RecRow>
  {
    var raw, sells := Filter(IsSellFill, fills), Filter(IsSell, rows);
    ReconcileDays(
      Sort(TupleLeq, Days(raw, sells, daily, trade)), raw, sells, LatestRows(daily), LatestRows(trade))
  }

  function TableAlarms(table: seq<RecRow>, start: set<Alarm>): set<Alarm> {
    if table == [] then start
    else
      TableAlarms(table[..|table| - 1], start)
        + (table[|table| - 1].alarms * {DailyMismatch, TradeMismatch})
  }

  function GroupOf<T(!new)>(groups: map<seq<string>, seq<T>>, key: seq<string>): seq<T> {
    if key in groups then groups[key] else []
  }

  lemma GroupedLookup<T(!new)>(
    key: T -> seq<string>, groups: map<seq<string>, seq<T>>, order: seq<seq<string>>, rows: seq<T>,
    k: seq<string>)
    requires Grouped(key, groups, order, rows)
    ensures GroupOf(groups, k) == Group(key, k, rows)
  {
    if k !in groups { EmptyGroup(key, rows, k); }
  }

  method ReconciliationRows(
    fills: seq<Fill>, rows: seq<ReviewRow>, daily: seq<Summary>, trade: seq<Summary>,
    warnings: set<Alarm>) returns (result: seq<RecRow>, raised: set<Alarm>)
    ensures result == ReconciliationTable(fills, rows, daily, trade)
    ensures raised == TableAlarms(result, warnings)
  {
    var raw, sells := Filter(IsSellFill, fills), Filter(IsSell, rows);
    var rawByDay, rawDays := GroupInto(FillDay, raw);
    var sellsByDay, sellDays := GroupInto(RowDay, sells);
    var dailyLatest := LatestSummary(daily);
    var tradeLatest := LatestSummary(trade);
    var keys := Sort(TupleLeq, Days(raw, sells, daily, trade));
    result, raised := [], warnings;
    for i := 0 to |keys|
      invariant Progress(result, raised, keys, i, raw, sells, dailyLatest, tradeLatest, warnings)
    {
      var key := keys[i];
      GroupedLookup(FillDay, rawByDay, rawDays, raw, key);
      GroupedLookup(RowDay, sellsByDay, sellDays, sells, key);
      var row := Reconcile(key, GroupOf(rawByDay, key), GroupOf(sellsByDay, key),
        SummaryValue(dailyLatest, key), SummaryValue(tradeLatest, key));
      assert row == ReconcileDay(key, raw, sells, dailyLatest, tradeLatest);
      ProgressStep(result, raised, keys, i, raw, sells, dailyLatest, tradeLatest, warnings);
      raised := raised + (row.alarms * {DailyMismatch, TradeMismatch});
      result := result + [row];
    }
    assert keys[..|keys|] == keys;
  }

  ghost predicate Progress(
    result: seq<RecRow>, raised: set<Alarm>, keys: seq<seq<string>>, i: nat, raw: seq<Fill>,
    sells: seq<ReviewRow>, daily: map<seq<string>, Summary>, trade: map<seq<string>, Summary>,
    start: set<Alarm>)
    requires i <= |keys|
  {
    result == ReconcileDays(keys[..i], raw, sells, daily, trade) && raised == TableAlarms(result, start)
  }

  lemma ProgressStep(
    result: seq<RecRow>, raised: set<Alarm>, keys: seq<seq<string>>, i: nat, raw: seq<Fill>,
    sells: seq<ReviewRow>, daily: map<seq<string>, Summary>, trade: map<seq<string>, Summary>,
    start: set<Alarm>)
    requires i < |keys| && Progress(result, raised, keys, i, raw, sells, daily, trade, start)
    ensures var row := ReconcileDay(keys[i], raw, sells, daily, trade);
            Progress(result + [row], raised + (row.alarms * {DailyMismatch, TradeMismatch}),
              keys, i + 1, raw, sells, daily, trade, start)
  {
    assert keys[..i + 1][..i] == keys[..i];
    var row := ReconcileDay(keys[i], raw, sells, daily, trade);
    assert (result + [row])[..|result|] == result;
  }

  // ---- totals ----------------------------------------------------------------

  function TableTotal(table: seq<RecRow>, field: RecRow -> real): real {
    if table == [] then 0.0
    else TableTotal(table[..|table| - 1], field) + field(table[|table| - 1])
  }

  function TrustedField(r: RecRow): real { r.trustedProfit }

  function BestField(r: RecRow): real { r.bestProfit }

  function RawField(r: RecRow): real { r.rawProfit }

  function TrustedCountField(r: RecRow): real { r.trustedCount as real }

  function BestCountField(r: RecRow): real { r.bestCount as real }

  function RawCountField(r: RecRow): real { r.rawCount as real }

  predicate TrustedRow(r: ReviewRow) { IsSell(r) && Trusted(r) }

  predicate BestRow(r: ReviewRow) { IsSell(r) && BestEffort(r) }

  function TrustedOne(r: ReviewRow): real { if TrustedRow(r) then 1.0 else 0.0 }

  function BestOne(r: ReviewRow): real { if BestRow(r) then 1.0 else 0.0 }

  function FillOne(f: Fill): real { 1.0 }

  lemma {:induction false} SumOfKept(
    group: seq<ReviewRow>, keep: ReviewRow -> bool, value: ReviewRow -> real)
    requires forall r :: r in group ==> value(r) == if keep(r) then ProfitOrZero(r) else 0.0
    ensures SumBy(ProfitOrZero, Filter(keep, group)) == SumBy(value, group)
  {
    if group != [] {
      SumOfKept(group[1..], keep, value);
      var rest := Filter(keep, group[1..]);
      assert ([group[0]] + rest)[1..] == rest;
    }
  }

  lemma {:induction false} CountOfKept(
    group: seq<ReviewRow>, keep: ReviewRow -> bool, ones: ReviewRow -> real)
    requires forall r :: r in group ==> ones(r) == if keep(r) then 1.0 else 0.0
    ensures |Filter(keep, group)| as real == SumBy(ones, group)
  {
    if group != [] {
      CountOfKept(group[1..], keep, ones);
    }
  }

  lemma {:induction false} CountOfFills(fills: seq<Fill>)
    ensures |fills| as real == SumBy(FillOne, fills)
  {
    if fills != [] {
      CountOfFills(fills[1..]);
    }
  }

  /** What a field of a day's row says: the day group's sum of a value. */
  ghost predicate SumsDay<T(!new)>(
    field: RecRow -> real, row: RecRow, key: T -> seq<string>, value: T -> real, rows: seq<T>)
  {
    field(row) == SumBy(value, Group(key, row.key, rows))
  }

  lemma ReconcileDayTotals(
    key: seq<string>, raw: seq<Fill>, sells: seq<ReviewRow>,
    daily: map<seq<string>, Summary>, trade: map<seq<string>, Summary>)
    requires forall r :: r in sells ==> IsSell(r)
    ensures var row := ReconcileDay(key, raw, sells, daily, trade);
            && row.key == key
            && SumsDay(TrustedField, row, RowDay, TrustedSellProfit, sells)
            && SumsDay(BestField, row, RowDay, BestSellProfit, sells)
            && SumsDay(RawField, row, FillDay, RawProfit, raw)
            && SumsDay(TrustedCountField, row, RowDay, TrustedOne, sells)
            && SumsDay(BestCountField, row, RowDay, BestOne, sells)
            && SumsDay(RawCountField, row, FillDay, FillOne, raw)
  {
    SumOfKept(Group(RowDay, key, sells), Trusted, TrustedSellProfit);
    SumOfKept(Group(RowDay, key, sells), BestEffort, BestSellProfit);
    CountOfKept(Group(RowDay, key, sells), Trusted, TrustedOne);
    CountOfKept(Group(RowDay, key, sells), BestEffort, BestOne);
    CountOfFills(Group(FillDay, key, raw));
  }

  lemma TableTotalAppend(table: seq<RecRow>, row: RecRow, field: RecRow -> real)
    ensures TableTotal(table + [row], field) == TableTotal(table, field) + field(row)
  {
  }

  /** If a field of each day's row totals that day's group, the column totals all groups. */
  lemma {:induction false} ColumnTotal<T(!new)>(
    keys: seq<seq<string>>, raw: seq<Fill>, sells: seq<ReviewRow>,
    daily: map<seq<string>, Summary>, trade: map<seq<string>, Summary>,
    field: RecRow -> real, key: T -> seq<string>, value: T -> real, rows: seq<T>)
    requires forall k :: k in keys ==>
               SumsDay(field, ReconcileDay(k, raw, sells, daily, trade), key, value, rows)
    ensures TableTotal(ReconcileDays(keys, raw, sells, daily, trade), field)
         == GroupTotal(key, value, rows, keys)
  {
    if keys != [] {
      var front, last := keys[..|keys| - 1], keys[|keys| - 1];
      ColumnTotal(front, raw, sells, daily, trade, field, key, value, rows);
      var row := ReconcileDay(last, raw, sells, daily, trade);
      TableTotalAppend(ReconcileDays(front, raw, sells, daily, trade), row, field);
      assert keys == front + [last] && row.key == last;
      assert SumsDay(field, row, key, value, rows);
      GroupTotalAppend(key, value, rows, front, last);
    }
  }

  lemma DaysCover(raw: seq<Fill>, sells: seq<ReviewRow>, daily: seq<Summary>, trade: seq<Summary>)
    ensures NoDuplicates(Days(raw, sells, daily, trade))
    ensures forall f :: f in raw ==> FillDay(f) in Days(raw, sells, daily, trade)
    ensures forall r :: r in sells ==> RowDay(r) in Days(raw, sells, daily, trade)
  {
    DistinctFacts(Map(FillDay, raw) + Map(RowDay, sells)
      + Map(SummaryKey, Filter(Dated, daily)) + Map(SummaryKey, Filter(Dated, trade)));
    forall f | f in raw ensures FillDay(f) in Map(FillDay, raw) {
      var i :| 0 <= i < |raw| && raw[i] == f;
      assert Map(FillDay, raw)[i] == FillDay(f);
    }
    forall r | r in sells ensures RowDay(r) in Map(RowDay, sells) {
      var i :| 0 <= i < |sells| && sells[i] == r;
      assert Map(RowDay, sells)[i] == RowDay(r);
    }
  }

  /** The whole column, when every day is listed once. */
  lemma TableColumn<T(!new)>(
    keys: seq<seq<string>>, raw: seq<Fill>, sells: seq<ReviewRow>,
    daily: map<seq<string>, Summary>, trade: map<seq<string>, Summary>,
    field: RecRow -> real, key: T -> seq<string>, value: T -> real, rows: seq<T>)
    requires forall k :: k in keys ==>
               SumsDay(field, ReconcileDay(k, raw, sells, daily, trade), key, value, rows)
    requires NoDuplicates(keys) && forall r :: r in rows ==> key(r) in keys
    ensures TableTotal(ReconcileDays(keys, raw, sells, daily, trade), field) == SumBy(value, rows)
  {
    ColumnTotal(keys, raw, sells, daily, trade, field, key, value, rows);
    GroupingKeepsRows(key, value, rows, keys);
  }

  /** The columns of the table, over all sells and all raw sells. */
  lemma TableTotals(
    fills: seq<Fill>, rows: seq<ReviewRow>, daily: seq<Summary>, trade: seq<Summary>)
    ensures var table := ReconciliationTable(fills, rows, daily, trade);
            var raw := Filter(IsSellFill, fills);
            && TableTotal(table, TrustedField) == SumBy(TrustedSellProfit, rows)
            && TableTotal(table, BestField) == SumBy(BestSellProfit, rows)
            && TableTotal(table, RawField) == SumBy(RawProfit, raw)
            && TableTotal(table, TrustedCountField) == SumBy(TrustedOne, rows)
            && TableTotal(table, BestCountField) == SumBy(BestOne, rows)
            && TableTotal(table, RawCountField) == SumBy(FillOne, raw)
  {
    var raw, sells := Filter(IsSellFill, fills), Filter(IsSell, rows);
    var days := Days(raw, sells, daily, trade);
    var keys := Sort(TupleLeq, days);
    var latest, totals := LatestRows(daily), LatestRows(trade);
    DaysCover(raw, sells, daily, trade);
    TupleOrderTotal();
    SortSorts(TupleLeq, days);
    PermutedNoDuplicates(days, keys);
    forall k ensures var row := ReconcileDay(k, raw, sells, latest, totals);
        && row.key == k
        && SumsDay(TrustedField, row, RowDay, TrustedSellProfit, sells)
        && SumsDay(BestField, row, RowDay, BestSellProfit, sells)
        && SumsDay(RawField, row, FillDay, RawProfit, raw)
        && SumsDay(TrustedCountField, row, RowDay, TrustedOne, sells)
        && SumsDay(BestCountField, row, RowDay, BestOne, sells)
        && SumsDay(RawCountField, row, FillDay, FillOne, raw)
    {
      ReconcileDayTotals(k, raw, sells, latest, totals);
    }
    TableColumn(keys, raw, sells, latest, totals, TrustedField, RowDay, TrustedSellProfit, sells);
    TableColumn(keys, raw, sells, latest, totals, BestField, RowDay, BestSellProfit, sells);
    TableColumn(keys, raw, sells, latest, totals, RawField, FillDay, RawProfit, raw);
    TableColumn(keys, raw, sells, latest, totals, TrustedCountField, RowDay, TrustedOne, sells);
    TableColumn(keys, raw, sells, latest, totals, BestCountField, RowDay, BestOne, sells);
    TableColumn(keys, raw, sells, latest, totals, RawCountField, FillDay, FillOne, raw);
    FilteredTotal(rows, IsSell, TrustedSellProfit);
    FilteredTotal(rows, IsSell, BestSellProfit);
    FilteredTotal(rows, IsSell, TrustedOne);
    FilteredTotal(rows, IsSell, BestOne);
  }

  /**
   * The reconciliation rows total exactly what the profit views total, and their raw side counts and
   * totals every raw sell, whatever days the summaries add.
   */
  lemma ReconciliationAgreesWithViews(
    fills: seq<Fill>, rows: seq<ReviewRow>, daily: seq<Summary>, trade: seq<Summary>)
    ensures var table := ReconciliationTable(fills, rows, daily, trade);
            && TableTotal(table, TrustedField) == Grand(View(rows, ByDay), TrustedTotal)
            && TableTotal(table, BestField) == Grand(View(rows, ByDay), BestTotal)
            && TableTotal(table, RawField) == SumBy(RawProfit, Filter(IsSellFill, fills))
            && TableTotal(table, RawCountField) == |Filter(IsSellFill, fills)| as real
  {
    TableTotals(fills, rows, daily, trade);
    ViewAddsUp(rows, ByDay);
    CountOfFills(Filter(IsSellFill, fills));
  }

  lemma {:induction false} CountsMeet(
    rows: seq<ReviewRow>, wide: ReviewRow -> bool, narrow: ReviewRow -> bool)
    requires forall r :: narrow(r) ==> wide(r)
    ensures CountBy(narrow, rows) <= CountBy(wide, rows)
    ensures CountBy(narrow, rows) == CountBy(wide, rows)
            <==> forall r :: r in rows && wide(r) ==> narrow(r)
  {
    if rows != [] {
      CountsMeet(rows[1..], wide, narrow);
      assert forall r :: r in rows <==> r == rows[0] || r in rows[1..];
    }
  }

  /** The counts agree with those of the views if and only if every counted sell has a known profit. */
  lemma CountsAgreeIffPriced(
    fills: seq<Fill>, rows: seq<ReviewRow>, daily: seq<Summary>, trade: seq<Summary>)
    ensures var table := ReconciliationTable(fills, rows, daily, trade);
            && (TableTotal(table, TrustedCountField) == Grand(View(rows, ByDay), TrustedCount)
                <==> forall r :: r in rows && TrustedRow(r) ==> Profit(r).Some?)
            && (TableTotal(table, BestCountField) == Grand(View(rows, ByDay), BestCount)
                <==> forall r :: r in rows && BestRow(r) ==> Profit(r).Some?)
  {
    TableTotals(fills, rows, daily, trade);
    ViewAddsUp(rows, ByDay);
    OnesCount(TrustedOne, TrustedRow, rows);
    OnesCount(BestOne, BestRow, rows);
    CountsMeet(rows, TrustedRow, CountsTrusted);
    CountsMeet(rows, BestRow, CountsBest);
  }

  /** They do for the rows of a review, whatever trades its exits come from. */
  lemma ReviewCountsAgree(
    fills: seq<Fill>, orders: seq<OrderRow>, text: GroupKey -> string, trades: seq<Trade>,
    clock: string -> Option<Seconds>, rows: seq<ReviewRow>, daily: seq<Summary>,
    trade: seq<Summary>)
    requires IsMatched(rows, Normalize(fills, orders, text), trades, clock)
    ensures var table := ReconciliationTable(fills, rows, daily, trade);
            && TableTotal(table, TrustedCountField) == Grand(View(rows, ByDay), TrustedCount)
            && TableTotal(table, BestCountField) == Grand(View(rows, ByDay), BestCount)
  {
    var out := Normalize(fills, orders, text);
    forall r | r in rows && (TrustedRow(r) || BestRow(r)) ensures Profit(r).Some? {
      var i :| 0 <= i < |rows| && rows[i] == r;
      OutputsAreGroups(fills, orders, text, i);
      var evidence, crossIds := Evidence(orders), CrossIds(fills);
      var key, group :| group != [] && out[i] == NormalizeGroup(key, group, evidence, crossIds);
      TrustedIsBestEffort(key, group, evidence, crossIds, r.exit);
      BestSellsArePriced(key, group, evidence, crossIds, r.exit);
      assert r == ReviewRow(out[i], r.exit);
    }
    CountsAgreeIffPriced(fills, rows, daily, trade);
  }
}
