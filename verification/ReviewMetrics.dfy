/** What the figures of a normalized row are, in terms of the source rows that it counts. */
module ReviewMetrics {
  import opened Common
  import opened FillReader
  import opened FillReview
  import opened Sorting
  import WriterReader

  // ---- columns ---------------------------------------------------------------

  function Shares(r: Fill): int { r.quantity.GetOr(0) }

  function PriceColumn(r: Fill): Option<real> { r.price }

  function AmountColumn(r: Fill): Option<real> { r.amount }

  function ProfitColumn(r: Fill): Option<real> { r.profit }

  function RateColumn(r: Fill): Option<real> { r.profitRate }

  function Plain(column: Fill -> Option<real>): Fill -> real {
    (r: Fill) => column(r).GetOr(0.0)
  }

  function PerShare(column: Fill -> Option<real>): Fill -> real {
    (r: Fill) => column(r).GetOr(0.0) * Shares(r) as real
  }

  /** The sum of a column, known when it is known of every row. */
  ghost predicate IsTotal(total: Option<real>, rows: seq<Fill>, column: Fill -> Option<real>) {
    && (total.None? <==> exists r :: r in rows && column(r).None?)
    && (total.Some? ==> total.value == SumBy(Plain(column), rows))
  }

  /** The average of a column by shares: it fits the weighted sum and lies between two of the rows. */
  ghost predicate IsAverage(mean: Option<real>, rows: seq<Fill>, column: Fill -> Option<real>) {
    && (mean.None? <==> exists r :: r in rows && column(r).None?)
    && (mean.Some? ==>
          && mean.value * SumInt(Shares, rows) as real == SumBy(PerShare(column), rows)
          && (exists r :: r in rows && column(r).value <= mean.value)
          && (exists r :: r in rows && mean.value <= column(r).value))
  }

  /** The figures `m` of the counted rows. */
  ghost predicate AreFigures(m: Metrics, rows: seq<Fill>) {
    && m.quantity == Some(SumInt(Shares, rows))
    && IsAverage(m.price, rows, PriceColumn)
    && IsTotal(m.amount, rows, AmountColumn)
    && IsTotal(m.profit, rows, ProfitColumn)
    && IsAverage(m.profitRate, rows, RateColumn)
  }

  ghost predicate AllPositive(rows: seq<Fill>) {
    forall r :: r in rows ==> r.quantity.Some? && r.quantity.value > 0
  }

  // ---- sums ------------------------------------------------------------------

  lemma {:induction false} MappedSum<T, U>(f: T -> U, g: U -> real, h: T -> real, s: seq<T>)
    requires forall x :: x in s ==> g(f(x)) == h(x)
    ensures SumBy(g, Map(f, s)) == SumBy(h, s)
  {
    if s != [] {
      MappedSum(f, g, h, s[1..]);
      assert Map(f, s)[1..] == Map(f, s[1..]);
    }
  }

  lemma TotalStated(rows: seq<Fill>, field: Fill -> Option<real>, column: Fill -> Option<real>)
    requires forall r :: r in rows ==> field(r) == column(r)
    ensures IsTotal(SumOfAll(Map(field, rows)), rows, column)
  {
    var values := Map(field, rows);
    if None in values {
      var i :| 0 <= i < |values| && values[i] == None;
      assert rows[i] in rows;
    } else {
      forall r | r in rows ensures column(r).Some? {
        var i :| 0 <= i < |rows| && rows[i] == r;
        assert values[i] in values;
      }
      MappedSum(field, (v: Option<real>) => v.GetOr(0.0), Plain(column), rows);
    }
  }

  /** How far the weighted sum of a column is above `bound` for every share. */
  function Excess(rows: seq<Fill>, column: Fill -> Option<real>, bound: real): real {
    SumBy(PerShare(column), rows) - bound * SumInt(Shares, rows) as real
  }

  lemma ExcessStep(rows: seq<Fill>, column: Fill -> Option<real>, bound: real)
    requires rows != []
    ensures Excess(rows, column, bound)
         == (column(rows[0]).GetOr(0.0) - bound) * Shares(rows[0]) as real
            + Excess(rows[1..], column, bound)
  {
    var price, q, rest := column(rows[0]).GetOr(0.0), Shares(rows[0]), SumInt(Shares, rows[1..]);
    assert SumInt(Shares, rows) == q + rest;
    assert SumBy(PerShare(column), rows) == price * q as real + SumBy(PerShare(column), rows[1..]);
    assert bound * (q + rest) as real == bound * q as real + bound * rest as real;
    assert (price - bound) * q as real == price * q as real - bound * q as real;
  }

  lemma StrictProduct(a: real, q: real)
    requires q > 0.0
    ensures a > 0.0 ==> a * q > 0.0
    ensures a < 0.0 ==> a * q < 0.0
  {
  }

  lemma {:induction false} ExcessSign(
    rows: seq<Fill>, column: Fill -> Option<real>, bound: real, above: bool)
    requires rows != [] && AllPositive(rows)
    requires forall r :: r in rows ==>
               column(r).Some? && if above then column(r).value > bound else column(r).value < bound
    ensures if above then Excess(rows, column, bound) > 0.0 else Excess(rows, column, bound) < 0.0
  {
    var r := rows[0];
    assert r in rows;
    ExcessStep(rows, column, bound);
    StrictProduct(column(r).value - bound, Shares(r) as real);
    if |rows| > 1 {
      ExcessSign(rows[1..], column, bound, above);
    } else {
      assert rows[1..] == [] && SumInt(Shares, rows[1..]) == 0;
    }
  }

  lemma {:induction false} SharesAreQuantities(rows: seq<Fill>)
    requires AllPositive(rows)
    ensures SumQuantity(rows) == SumInt(Shares, rows) >= |rows|
  {
    if rows != [] {
      assert rows[0] in rows;
      SharesAreQuantities(rows[1..]);
    }
  }

  lemma AverageLiesBetween(rows: seq<Fill>, column: Fill -> Option<real>, mean: real)
    requires rows != [] && AllPositive(rows) && forall r :: r in rows ==> column(r).Some?
    requires mean * SumInt(Shares, rows) as real == SumBy(PerShare(column), rows)
    ensures exists r :: r in rows && column(r).value <= mean
    ensures exists r :: r in rows && mean <= column(r).value
  {
    if forall r :: r in rows ==> column(r).value > mean {
      ExcessSign(rows, column, mean, true);
      assert false;
    }
    if forall r :: r in rows ==> column(r).value < mean {
      ExcessSign(rows, column, mean, false);
      assert false;
    }
  }

  lemma WeightedFits(rows: seq<Fill>, field: Fill -> Option<real>, column: Fill -> Option<real>)
    requires rows != [] && AllPositive(rows)
    requires forall r :: r in rows ==> field(r) == column(r) && field(r).Some?
    ensures var mean := Weighted(rows, field);
            mean.Some? && mean.value * SumInt(Shares, rows) as real == SumBy(PerShare(column), rows)
  {
    SharesAreQuantities(rows);
    var weight := (r: Fill) => Product(field(r).GetOr(0.0), Quantity(r));
    SumByAgree(weight, PerShare(column), rows);
    var sum, shares := SumBy(weight, rows), SumQuantity(rows) as real;
    assert Weighted(rows, field) == Some(sum / shares);
    assert sum / shares * shares == sum;
  }

  lemma AverageStated(rows: seq<Fill>, field: Fill -> Option<real>, column: Fill -> Option<real>)
    requires rows != [] && AllPositive(rows) && forall r :: r in rows ==> field(r) == column(r)
    ensures IsAverage(Weighted(rows, field), rows, column)
  {
    if forall r :: r in rows ==> field(r).Some? {
      WeightedFits(rows, field, column);
      AverageLiesBetween(rows, column, Weighted(rows, field).value);
    }
  }

  // ---- counted rows ----------------------------------------------------------

  /** The rows left after equal payloads collapse are rows of the group. */
  lemma UniqueRowsStay(rows: seq<Fill>)
    requires rows != []
    ensures UniqueRows(rows) != [] && forall r :: r in UniqueRows(rows) ==> r in rows
    ensures |rows| == 1 ==> UniqueRows(rows) == rows
  {
    PutKeepsRows(rows);
    WriterReader.SignatureRowsMembers(rows);
    RowOrderTotal();
    SortSorts(RowLeq, SignatureRows(rows));
    if |rows| == 1 {
      assert rows[..0] == [] && SignatureRows(rows[..0]) == [];
      assert SignatureRows(rows) == [rows[0]] == rows;
      SortedStays(RowLeq, rows);
    }
  }

  /** Unless the group is excluded, some of its distinct rows are counted, and these have shares. */
  lemma CountedRows(
    rows: seq<Fill>, unique: seq<Fill>, values: set<int>, crossIds: set<string>)
    requires rows != [] && unique != []
    ensures var d := Decide(rows, unique, values, crossIds);
            && (d.reading.AmbiguousExcluded? <==> d.selected == [])
            && (forall r :: r in d.selected ==> r in unique) && AllPositive(d.selected)
            && (|unique| == 1 && d.selected != [] ==> d.selected == unique)
  {
    var d := Decide(rows, unique, values, crossIds);
    if d.selected != [] {
      assert !HasInvalidQuantity(unique);
      forall r | r in unique ensures r.quantity.Some? && r.quantity.value > 0 {
        assert !InvalidQuantity(r);
      }
      assert d.selected == unique || d.selected == [Latest(unique)];
      assert |unique| == 1 ==> unique == [Latest(unique)];
    }
  }

  lemma FiguresStated(d: Decision)
    requires !d.reading.AmbiguousExcluded? && d.selected != [] && AllPositive(d.selected)
    ensures AreFigures(SelectedMetrics(d), d.selected)
  {
    var rows := d.selected;
    SharesAreQuantities(rows);
    AverageStated(rows, PriceOf, PriceColumn);
    TotalStated(rows, AmountOf, AmountColumn);
    TotalStated(rows, ProfitOf, ProfitColumn);
    AverageStated(rows, ProfitRateOf, RateColumn);
  }

  lemma GroupFigures(
    key: GroupKey, rows: seq<Fill>, evidence: map<OrderKey, set<int>>, crossIds: set<string>)
    requires rows != []
    ensures var n := NormalizeGroup(key, rows, evidence, crossIds);
            && Figured(n)
            && (|n.rows| == 1 && n.decision.selected != [] ==> n.decision.selected == n.rows)
  {
    UniqueRowsStay(rows);
    var values := GroupEvidence(rows, evidence);
    CountedRows(rows, UniqueRows(rows), values, crossIds);
    var d := Decide(rows, UniqueRows(rows), values, crossIds);
    if !d.reading.AmbiguousExcluded? {
      FiguresStated(d);
    }
  }

  /** What a normalized row shows: nothing when excluded, else the figures of its counted rows. */
  ghost predicate Figured(n: Normalized) {
    var counted := n.decision.selected;
    && (forall r :: r in counted ==> r in n.rows) && AllPositive(counted)
    && if n.decision.reading.AmbiguousExcluded? then
         counted == [] && n.metrics == Metrics(None, None, None, None, None)
       else counted != [] && AreFigures(n.metrics, counted)
  }

  // ---- main results ----------------------------------------------------------

  /**
   * Every output of the normalization shows the totals and share-weighted averages of its counted
   * rows: quantity, amount and profit are sums, price and rate fit their weighted sums and lie
   * between two rows, and each is missing exactly when one of the rows lacks it.
   */
  lemma OutputsAreFigured(fills: seq<Fill>, orders: seq<OrderRow>, text: GroupKey -> string, i: nat)
    requires i < |Normalize(fills, orders, text)|
    ensures Figured(Normalize(fills, orders, text)[i])
  {
    var n := Normalize(fills, orders, text)[i];
    OutputsAreGroups(fills, orders, text, i);
    var key, rows :| rows != [] && n == NormalizeGroup(key, rows, Evidence(orders), CrossIds(fills));
    GroupFigures(key, rows, Evidence(orders), CrossIds(fills));
  }

  /** One counted row is shown as it is. */
  lemma OneCountedRow(n: Normalized)
    requires Figured(n) && |n.decision.selected| == 1
    ensures var r := n.decision.selected[0];
            n.metrics == Metrics(r.quantity, r.price, r.amount, r.profit, r.profitRate)
  {
    var r, m := n.decision.selected[0], n.metrics;
    assert n.decision.selected == [r] && r in [r] && [r][1..] == [];
    assert SumInt(Shares, [r]) == Shares(r);
    assert SumBy(Plain(AmountColumn), [r]) == r.amount.GetOr(0.0);
    assert SumBy(Plain(ProfitColumn), [r]) == r.profit.GetOr(0.0);
  }

  /** A source row alone in its group is shown as it is, unless it is excluded. */
  lemma LoneRowIsShown(fills: seq<Fill>, orders: seq<OrderRow>, text: GroupKey -> string, i: nat)
    requires i < |Normalize(fills, orders, text)|
    requires var n := Normalize(fills, orders, text)[i];
             |n.rows| == 1 && !n.decision.reading.AmbiguousExcluded?
    ensures var n := Normalize(fills, orders, text)[i];
            var r := n.rows[0];
            n.metrics == Metrics(r.quantity, r.price, r.amount, r.profit, r.profitRate)
  {
    var n := Normalize(fills, orders, text)[i];
    OutputsAreGroups(fills, orders, text, i);
    var key, rows :| rows != [] && n == NormalizeGroup(key, rows, Evidence(orders), CrossIds(fills));
    GroupFigures(key, rows, Evidence(orders), CrossIds(fills));
    OneCountedRow(n);
  }

  /** When every source row is counted and its profit known, the raw profit is what is shown. */
  lemma AllRowsCounted(fills: seq<Fill>, orders: seq<OrderRow>, text: GroupKey -> string, i: nat)
    requires i < |Normalize(fills, orders, text)|
    requires var n := Normalize(fills, orders, text)[i];
             && multiset(n.decision.selected) == multiset(n.rows)
             && !n.decision.reading.AmbiguousExcluded?
             && forall r :: r in n.rows ==> r.profit.Some?
    ensures var n := Normalize(fills, orders, text)[i];
            n.metrics.profit == Some(n.rawProfit) == Some(SumBy(Plain(ProfitColumn), n.rows))
  {
    var n := Normalize(fills, orders, text)[i];
    OutputsAreFigured(fills, orders, text, i);
    NormalizeCovers(fills, orders, text);
    SumByAgree(RawProfit, Plain(ProfitColumn), n.rows);
    SumByPermutation(Plain(ProfitColumn), n.decision.selected, n.rows);
  }
}
