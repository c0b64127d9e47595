/** Average-cost accounting over a run of fills: cash is conserved exactly when nothing is oversold. */
module FillCash {
  import opened Common
  import opened FillWriter
  import opened RealFacts
  import opened Sorting

  // ---- cash totals of one ticker, read off the emitted records ----------------

  function Value(r: FillRecord): real { Notional(r.price, r.quantity) }

  function BuyCost(records: seq<FillRecord>, ticker: string): real {
    if records == [] then 0.0
    else
      var last := records[|records| - 1];
      BuyCost(records[..|records| - 1], ticker)
        + if last.ticker == ticker && last.side.Buy? then Value(last) else 0.0
  }

  function Proceeds(records: seq<FillRecord>, ticker: string): real {
    if records == [] then 0.0
    else
      var last := records[|records| - 1];
      Proceeds(records[..|records| - 1], ticker)
        + if last.ticker == ticker && last.side.Sell? then Value(last) else 0.0
  }

  function Realized(records: seq<FillRecord>, ticker: string): real {
    if records == [] then 0.0
    else
      var last := records[|records| - 1];
      Realized(records[..|records| - 1], ticker)
        + if last.ticker == ticker then last.profit.GetOr(0.0) else 0.0
  }

  function Inventory(p: Position): real { Notional(p.price.GetOr(0.0), p.quantity) }

  /** Proceeds and stock on one side, realized profit and cost on the other. */
  function Gap(w: Writer, ticker: string): real {
    Proceeds(w.records, ticker) + Inventory(w.Held(ticker))
      - Realized(w.records, ticker) - BuyCost(w.records, ticker)
  }

  // ---- sells without a cost basis ---------------------------------------------

  /**
   * The row sells `ticker` without a cost basis for every share: it takes more shares than are
   * held at a positive average cost, or it brings in cash while no positive cost is known.
   */
  predicate Uncovered(ctx: Context, w: Writer, row: BrokerRow, ticker: string) {
    && ValidRow(row) && row.ticker == ticker && row.side.Sell? && Delta(ctx, w, row) > 0
    && (if w.Held(ticker).price.GetOr(0.0) > 0.0 then Delta(ctx, w, row) > w.Held(ticker).quantity
        else row.price > 0.0)
  }

  ghost predicate AlwaysCovered(ctx: Context, w: Writer, rows: seq<BrokerRow>, ticker: string)
    decreases |rows|
  {
    rows == [] || (!Uncovered(ctx, w, rows[0], ticker)
                   && AlwaysCovered(ctx, AbsorbRow(ctx, w, rows[0]), rows[1..], ticker))
  }

  /** Costs are not negative, and a position without a cost holds nothing. */
  ghost predicate Costed(p: Position) {
    p.quantity >= 0 && p.price.GetOr(0.0) >= 0.0 && (p.price.None? ==> p.quantity == 0)
  }

  ghost predicate AllCosted(w: Writer) {
    forall t :: Costed(w.Held(t))
  }

  ghost predicate PricesNotNegative(rows: seq<BrokerRow>) {
    forall r :: r in rows ==> r.price >= 0.0
  }

  // ---- one row ---------------------------------------------------------------

  lemma AverageIsWeighted(p: Position, quantity: int, price: real)
    requires Costed(p) && quantity > 0 && price >= 0.0
    ensures var next := NextEntry(p, quantity, price);
            && Costed(next) && next.quantity == p.quantity + quantity
            && Inventory(next) == Inventory(p) + Notional(price, quantity)
            && (p.quantity > 0 ==>
                  MinReal(p.price.value, price) <= next.price.value
                  && next.price.value <= MaxReal(p.price.value, price))
            && (p.quantity == 0 ==> next.price == Some(price))
  {
    if p.quantity > 0 {
      Between(p.price.value, p.quantity, price, quantity);
    }
  }

  lemma Between(a: real, m: int, b: real, n: int)
    requires a >= 0.0 && b >= 0.0 && m > 0 && n > 0
    ensures var average := WeightedAverage(a, m, b, n);
            && Notional(average, m + n) == Notional(a, m) + Notional(b, n)
            && MinReal(a, b) <= average <= MaxReal(a, b) && average >= 0.0
  {
    var low, high := MinReal(a, b), MaxReal(a, b);
    NotionalMonotone(low, a, m);
    NotionalMonotone(low, b, n);
    NotionalMonotone(a, high, m);
    NotionalMonotone(b, high, n);
    NotionalSplits(low, m, n);
    NotionalSplits(high, m, n);
    QuotientBetween(Notional(a, m) + Notional(b, n), (m + n) as real, low, high);
  }

  lemma NotionalMonotone(a: real, b: real, n: int)
    requires a <= b && n >= 0
    ensures Notional(a, n) <= Notional(b, n)
  {
    ProductMonotone(a, b, n as real);
  }

  lemma NotionalSplits(price: real, m: int, n: int)
    ensures Notional(price, m) + Notional(price, n) == Notional(price, m + n)
  {
    assert (m + n) as real == m as real + n as real;
  }

  lemma SellBalances(p: Position, quantity: int, price: real)
    requires Costed(p) && quantity > 0 && price >= 0.0
    ensures var next := RemainingEntry(p, quantity);
            var profit := RealizedProfit(Sell, price, quantity, p.price).0.GetOr(0.0);
            var missing := Notional(price, quantity) + Inventory(next) - profit - Inventory(p);
            var uncovered := if p.price.GetOr(0.0) > 0.0 then quantity > p.quantity else price > 0.0;
            && Costed(next) && next.quantity == Max(0, p.quantity - quantity)
            && (!uncovered ==> missing == 0.0)
            && (uncovered ==> missing > 0.0)
  {
    var held, sold := p.quantity as real, quantity as real;
    var e := p.price.GetOr(0.0);
    assert (price - e) * sold == price * sold - e * sold;
    assert price > 0.0 ==> price * sold > 0.0;
    if quantity <= p.quantity {
      assert e * (held - sold) == e * held - e * sold;
    } else {
      assert e > 0.0 ==> e * held < e * sold;
    }
  }

  lemma TotalsAppend(records: seq<FillRecord>, r: FillRecord, ticker: string)
    ensures BuyCost(records + [r], ticker)
         == BuyCost(records, ticker) + if r.ticker == ticker && r.side.Buy? then Value(r) else 0.0
    ensures Proceeds(records + [r], ticker)
         == Proceeds(records, ticker) + if r.ticker == ticker && r.side.Sell? then Value(r) else 0.0
    ensures Realized(records + [r], ticker)
         == Realized(records, ticker) + if r.ticker == ticker then r.profit.GetOr(0.0) else 0.0
  {
    assert (records + [r])[..|records|] == records;
  }

  lemma BookBalances(
    ctx: Context, w: Writer, row: BrokerRow, quantity: int, amount: real, ticker: string)
    requires ValidRow(row) && quantity > 0 && AllCosted(w) && row.price >= 0.0
    ensures var next := Book(ctx, w, row, quantity, amount);
            var over := row.ticker == ticker && row.side.Sell?
                        && (if w.Held(ticker).price.GetOr(0.0) > 0.0
                            then quantity > w.Held(ticker).quantity else row.price > 0.0);
            && AllCosted(next)
            && (!over ==> Gap(next, ticker) == Gap(w, ticker))
            && (over ==> Gap(next, ticker) > Gap(w, ticker))
  {
    var next := Book(ctx, w, row, quantity, amount);
    var held := w.Held(row.ticker);
    assert Costed(held);
    TotalsAppend(w.records, next.records[|w.records|], ticker);
    assert next.records == w.records + [next.records[|w.records|]];
    if row.side.Buy? {
      AverageIsWeighted(held, quantity, row.price);
    } else if row.side.Sell? {
      SellBalances(held, quantity, row.price);
    }
    forall t ensures Costed(next.Held(t)) {
      assert t == row.ticker || next.Held(t) == w.Held(t);
      assert Costed(w.Held(t));
    }
  }

  lemma AbsorbRowBalances(ctx: Context, w: Writer, row: BrokerRow, ticker: string)
    requires AllCosted(w) && row.price >= 0.0
    ensures var next := AbsorbRow(ctx, w, row);
            && AllCosted(next)
            && (!Uncovered(ctx, w, row, ticker) ==> Gap(next, ticker) == Gap(w, ticker))
            && (Uncovered(ctx, w, row, ticker) ==> Gap(next, ticker) > Gap(w, ticker))
  {
    assert Costed(w.Held(ticker));
    if ValidRow(row) {
      if row.orderNo == "" {
        BookBalances(ctx, w, row, row.quantity, row.total, ticker);
      } else {
        var key := RowKey(ctx.isMock, row);
        var seen := w.(cumulative := w.cumulative[key := Max(w.Saved(key), row.quantity)]);
        assert forall t :: seen.Held(t) == w.Held(t);
        assert AllCosted(seen);
        assert Gap(seen, ticker) == Gap(w, ticker);
        var delta := Delta(ctx, w, row);
        if delta > 0 {
          BookBalances(ctx, seen, row, delta, Notional(row.price, delta), ticker);
        }
      }
    }
  }

  // ---- whole runs ------------------------------------------------------------

  lemma {:induction false} AbsorbBalances(
    ctx: Context, w: Writer, rows: seq<BrokerRow>, ticker: string)
    requires AllCosted(w) && PricesNotNegative(rows)
    ensures var last := Absorb(ctx, w, rows);
            && AllCosted(last)
            && Gap(last, ticker) >= Gap(w, ticker)
            && (Gap(last, ticker) == Gap(w, ticker) <==> AlwaysCovered(ctx, w, rows, ticker))
    decreases |rows|
  {
    if rows != [] {
      AbsorbRowBalances(ctx, w, rows[0], ticker);
      AbsorbBalances(ctx, AbsorbRow(ctx, w, rows[0]), rows[1..], ticker);
    }
  }

  /**
   * At every point of a run, realized profit plus buy cost equals sell proceeds plus remaining stock
   * at average cost if and only if every sell so far was covered.
   */
  lemma CashIsConservedIffCovered(
    ctx: Context, fills: seq<BrokerRow>, seeds: map<string, real>,
    existing: map<CumulativeKey, int>, ticker: string, i: nat)
    requires PricesNotNegative(fills) && i <= |Sort(RowLeq, fills)|
    requires forall t :: t in seeds ==> seeds[t] >= 0.0
    ensures var start, rows := Opening(seeds, existing), Sort(RowLeq, fills)[..i];
            var now := Absorb(ctx, start, rows);
            (Realized(now.records, ticker) + BuyCost(now.records, ticker)
             == Proceeds(now.records, ticker) + Inventory(now.Held(ticker)))
            <==> AlwaysCovered(ctx, start, rows, ticker)
  {
    RowOrderTotal();
    SortSorts(RowLeq, fills);
    var start := Opening(seeds, existing);
    assert AllCosted(start);
    assert Gap(start, ticker) == 0.0;
    AbsorbBalances(ctx, start, Sort(RowLeq, fills)[..i], ticker);
  }

  // ---- covered means: never more sold than bought ------------------------------

  function BoughtShares(records: seq<FillRecord>, ticker: string): int {
    if records == [] then 0
    else
      var last := records[|records| - 1];
      BoughtShares(records[..|records| - 1], ticker)
        + if last.ticker == ticker && last.side.Buy? then last.quantity else 0
  }

  function SoldShares(records: seq<FillRecord>, ticker: string): int {
    if records == [] then 0
    else
      var last := records[|records| - 1];
      SoldShares(records[..|records| - 1], ticker)
        + if last.ticker == ticker && last.side.Sell? then last.quantity else 0
  }

  predicate SoldWithinBought(records: seq<FillRecord>, ticker: string) {
    SoldShares(records, ticker) <= BoughtShares(records, ticker)
  }

  /** What is held is what was bought and not sold, and anything held has a positive cost. */
  ghost predicate Level(w: Writer, ticker: string) {
    var p := w.Held(ticker);
    && Costed(p) && p.quantity == BoughtShares(w.records, ticker) - SoldShares(w.records, ticker)
    && (p.quantity > 0 ==> p.price.GetOr(0.0) > 0.0)
  }

  lemma BookShares(
    ctx: Context, w: Writer, row: BrokerRow, quantity: int, amount: real, ticker: string)
    requires ValidRow(row) && quantity > 0 && row.price > 0.0 && Level(w, ticker)
    ensures var next := Book(ctx, w, row, quantity, amount);
            var over := row.ticker == ticker && row.side.Sell? && quantity > w.Held(ticker).quantity;
            && (!over ==> Level(next, ticker))
            && (over <==> !SoldWithinBought(next.records, ticker))
  {
    var next := Book(ctx, w, row, quantity, amount);
    assert next.records[..|w.records|] == w.records;
    if row.ticker == ticker && row.side.Buy? {
      AverageIsWeighted(w.Held(ticker), quantity, row.price);
    }
  }

  lemma AbsorbRowShares(ctx: Context, w: Writer, row: BrokerRow, ticker: string)
    requires Level(w, ticker) && row.price > 0.0
    ensures var next := AbsorbRow(ctx, w, row);
            && (!Uncovered(ctx, w, row, ticker) ==> Level(next, ticker))
            && (Uncovered(ctx, w, row, ticker) <==> !SoldWithinBought(next.records, ticker))
  {
    if ValidRow(row) {
      if row.orderNo == "" {
        BookShares(ctx, w, row, row.quantity, row.total, ticker);
      } else {
        var key := RowKey(ctx.isMock, row);
        var seen := w.(cumulative := w.cumulative[key := Max(w.Saved(key), row.quantity)]);
        assert seen.Held(ticker) == w.Held(ticker) && seen.records == w.records;
        var delta := Delta(ctx, w, row);
        if delta > 0 {
          BookShares(ctx, seen, row, delta, Notional(row.price, delta), ticker);
        }
      }
    }
  }

  lemma {:induction false} AlwaysCoveredIffSoldWithinBought(
    ctx: Context, w: Writer, rows: seq<BrokerRow>, ticker: string)
    requires Level(w, ticker) && forall r :: r in rows ==> r.price > 0.0
    ensures AlwaysCovered(ctx, w, rows, ticker)
            <==> forall k :: 0 <= k <= |rows| ==>
                               SoldWithinBought(Absorb(ctx, w, rows[..k]).records, ticker)
    decreases |rows|
  {
    if rows == [] {
      assert rows[..0] == [];
    } else {
      var next := AbsorbRow(ctx, w, rows[0]);
      AbsorbRowShares(ctx, w, rows[0], ticker);
      forall k | 1 <= k <= |rows|
        ensures Absorb(ctx, w, rows[..k]) == Absorb(ctx, next, rows[1..][..k - 1])
      {
        assert rows[..k][1..] == rows[1..][..k - 1];
      }
      assert Absorb(ctx, w, rows[..0]) == w;
      assert Absorb(ctx, w, rows[..1]) == next;
      if Level(next, ticker) {
        AlwaysCoveredIffSoldWithinBought(ctx, next, rows[1..], ticker);
        assert forall k :: 0 <= k <= |rows| - 1 ==>
                             Absorb(ctx, next, rows[1..][..k]) == Absorb(ctx, w, rows[..k + 1]);
      }
    }
  }

  /**
   * With positive prices every sell of a run is covered if and only if at no point more shares of
   * the ticker have been sold than bought; seeded prices hold nothing.
   */
  lemma CoveredIffSoldWithinBought(
    ctx: Context, fills: seq<BrokerRow>, seeds: map<string, real>,
    existing: map<CumulativeKey, int>, ticker: string, i: nat)
    requires i <= |Sort(RowLeq, fills)| && forall r :: r in fills ==> r.price > 0.0
    requires forall t :: t in seeds ==> seeds[t] >= 0.0
    ensures var start, rows := Opening(seeds, existing), Sort(RowLeq, fills)[..i];
            AlwaysCovered(ctx, start, rows, ticker)
            <==> forall k :: 0 <= k <= i ==>
                               SoldWithinBought(Absorb(ctx, start, rows[..k]).records, ticker)
  {
    RowOrderTotal();
    SortSorts(RowLeq, fills);
    AlwaysCoveredIffSoldWithinBought(
      ctx, Opening(seeds, existing), Sort(RowLeq, fills)[..i], ticker);
  }

  /** A lone sell of a ticker that was not bought breaks the balance, seeded or not. */
  lemma LoneSellBreaksBalance(
    ctx: Context, seeds: map<string, real>, existing: map<CumulativeKey, int>)
    returns (row: BrokerRow)
    requires forall t :: t in seeds ==> seeds[t] >= 0.0
    ensures var now := Absorb(ctx, Opening(seeds, existing), Sort(RowLeq, [row]));
            Realized(now.records, "A") + BuyCost(now.records, "A")
            != Proceeds(now.records, "A") + Inventory(now.Held("A"))
  {
    row := BrokerRow(
      "2026-01-05", Some(5), "23:00:00", Some(Clock(23, 0, 0)), "A", "", Sell, 1, 10.0, 10.0, "");
    var start := Opening(seeds, existing);
    SortedStays(RowLeq, [row]);
    assert [row][..1] == [row];
    assert Uncovered(ctx, start, row, "A");
    CashIsConservedIffCovered(ctx, [row], seeds, existing, "A", 1);
  }

  // ---- the average cost ------------------------------------------------------

  /** The buy prices booked for `ticker` since it was last flat. */
  function OpenBuys(ctx: Context, w: Writer, rows: seq<BrokerRow>, ticker: string, open: seq<real>)
    : seq<real>
    decreases |rows|
  {
    if rows == [] then open
    else
      var next := AbsorbRow(ctx, w, rows[0]);
      var bought := next.records != w.records && rows[0].ticker == ticker && rows[0].side.Buy?;
      var kept := if w.Held(ticker).quantity <= 0 then [] else open;
      OpenBuys(ctx, next, rows[1..], ticker, if bought then kept + [rows[0].price] else open)
  }

  ghost predicate AveragesWithin(p: Position, open: seq<real>, low: real, high: real) {
    p.quantity > 0 && (forall x :: x in open ==> low <= x <= high) ==>
      p.price.Some? && low <= p.price.value <= high
  }

  lemma BuyStaysWithin(
    p: Position, added: int, price: real, open: seq<real>, low: real, high: real)
    requires Costed(p) && added > 0 && price >= 0.0 && AveragesWithin(p, open, low, high)
    ensures var kept := if p.quantity <= 0 then [] else open;
            AveragesWithin(NextEntry(p, added, price), kept + [price], low, high)
  {
    var kept := if p.quantity <= 0 then [] else open;
    AverageIsWeighted(p, added, price);
    assert price in kept + [price] && forall x :: x in kept ==> x in kept + [price];
  }

  lemma {:induction false} AverageStaysWithinOpenBuys(
    ctx: Context, w: Writer, rows: seq<BrokerRow>, ticker: string, open: seq<real>,
    low: real, high: real)
    requires AllCosted(w) && PricesNotNegative(rows)
    requires AveragesWithin(w.Held(ticker), open, low, high)
    ensures AveragesWithin(
              Absorb(ctx, w, rows).Held(ticker), OpenBuys(ctx, w, rows, ticker, open), low, high)
    decreases |rows|
  {
    if rows != [] {
      var next := AbsorbRow(ctx, w, rows[0]);
      AbsorbRowBalances(ctx, w, rows[0], ticker);
      var bought := next.records != w.records && rows[0].ticker == ticker && rows[0].side.Buy?;
      var kept := if w.Held(ticker).quantity <= 0 then [] else open;
      var open' := if bought then kept + [rows[0].price] else open;
      assert Costed(w.Held(ticker)) && Costed(next.Held(ticker));
      if bought {
        var added := next.records[|w.records|].quantity;
        assert next.Held(ticker) == NextEntry(w.Held(ticker), added, rows[0].price);
        BuyStaysWithin(w.Held(ticker), added, rows[0].price, open, low, high);
      } else {
        assert next.Held(ticker).quantity > 0 ==> next.Held(ticker).price == w.Held(ticker).price;
      }
      AverageStaysWithinOpenBuys(ctx, next, rows[1..], ticker, open', low, high);
    }
  }

  /** Whenever shares are held, their average cost is between the extreme buy prices since flat. */
  lemma AverageWithinBuysSinceFlat(
    ctx: Context, fills: seq<BrokerRow>, seeds: map<string, real>,
    existing: map<CumulativeKey, int>, ticker: string, i: nat, low: real, high: real)
    requires PricesNotNegative(fills) && i <= |Sort(RowLeq, fills)|
    requires forall t :: t in seeds ==> seeds[t] >= 0.0
    ensures var start, rows := Opening(seeds, existing), Sort(RowLeq, fills)[..i];
            AveragesWithin(
              Absorb(ctx, start, rows).Held(ticker), OpenBuys(ctx, start, rows, ticker, []), low, high)
  {
    RowOrderTotal();
    SortSorts(RowLeq, fills);
    var start := Opening(seeds, existing);
    assert AllCosted(start);
    AverageStaysWithinOpenBuys(ctx, start, Sort(RowLeq, fills)[..i], ticker, [], low, high);
  }
}
