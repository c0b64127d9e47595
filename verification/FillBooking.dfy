/** In which order fills are booked, said on their dates and clocks, and what a round trip earns. */
module FillBooking {
  import opened Common
  import opened FillWriter
  import opened Sorting

  // ---- the order of booking ----------------------------------------------------------------

  predicate IsTimeOfDay(c: Clock) {
    0 <= c.hour < 24 && 0 <= c.minute < 60 && 0 <= c.second < 60
  }

  /** One clock time is before another on the same side of noon. */
  predicate ClockBefore(a: Clock, b: Clock) {
    a.hour < b.hour
    || (a.hour == b.hour && (a.minute < b.minute || (a.minute == b.minute && a.second < b.second)))
  }

  /** The session of a date runs from noon to noon: the hours before noon follow those after. */
  predicate InSessionBefore(a: Clock, b: Clock) {
    if a.hour >= 12 && b.hour < 12 then true
    else if a.hour < 12 && b.hour >= 12 then false
    else ClockBefore(a, b)
  }

  predicate Timed(r: BrokerRow) { r.clock.Some? && IsTimeOfDay(r.clock.value) }

  /** Row `a` happened before row `b`: on an earlier date, or earlier in the session of one date. */
  predicate Precedes(a: BrokerRow, b: BrokerRow) {
    if a.dateText != b.dateText then TextLeq(a.dateText, b.dateText)
    else Timed(a) && Timed(b) && InSessionBefore(a.clock.value, b.clock.value)
  }

  /**
   * Rows are booked by date text, within a date by the session, and at equal times by order number;
   * rows whose time does not parse come first on their date.
   */
  lemma BookedInSessionOrder(fills: seq<BrokerRow>, i: nat, j: nat)
    requires i < j < |fills|
    ensures |Sort(RowLeq, fills)| == |fills| && multiset(Sort(RowLeq, fills)) == multiset(fills)
    ensures var a, b := Sort(RowLeq, fills)[i], Sort(RowLeq, fills)[j];
            && !Precedes(b, a) && TextLeq(a.dateText, b.dateText)
            && (a.dateText == b.dateText && a.clock.None? && b.clock.None? ==>
                  TextLeq(a.orderNo, b.orderNo))
            && (a.dateText == b.dateText && Timed(a) && Timed(b) && a.clock == b.clock ==>
                  TextLeq(a.orderNo, b.orderNo))
            && !(a.dateText == b.dateText && Timed(a) && b.clock.None?)
  {
    RowOrderTotal();
    SortSorts(RowLeq, fills);
    var rows := Sort(RowLeq, fills);
    LengthOfMultiset(rows, fills);
    var a, b := rows[i], rows[j];
    assert RowLeq(a, b);
    if a.dateText == b.dateText {
      TextLeqReflexive(a.dateText);
    } else if TextLeq(b.dateText, a.dateText) {
      TextLeqAntisymmetric(a.dateText, b.dateText);
    }
  }

  lemma LengthOfMultiset<T>(a: seq<T>, b: seq<T>)
    requires multiset(a) == multiset(b)
    ensures |a| == |b|
  {
    assert |multiset(a)| == |a| && |multiset(b)| == |b|;
  }

  // ---- rows of other tickers -----------------------------------------------------------------

  predicate IsOf(ticker: string, row: BrokerRow) { ValidRow(row) && row.ticker == ticker }

  function RecordTest(ticker: string): FillRecord -> bool { (r: FillRecord) => r.ticker == ticker }

  /** The records of one ticker, in the order they were booked. */
  function RecordsOf(w: Writer, ticker: string): seq<FillRecord> {
    Filter(RecordTest(ticker), w.records)
  }

  /** The writers agree on all that concerns a ticker. */
  ghost predicate SameFor(w: Writer, w': Writer, ticker: string) {
    && w'.Held(ticker) == w.Held(ticker) && RecordsOf(w', ticker) == RecordsOf(w, ticker)
    && forall key: CumulativeKey :: key.ticker == ticker ==> w'.Saved(key) == w.Saved(key)
  }

  lemma OtherRowKeeps(ctx: Context, w: Writer, row: BrokerRow, ticker: string)
    requires !IsOf(ticker, row)
    ensures SameFor(w, AbsorbRow(ctx, w, row), ticker)
  {
    var next := AbsorbRow(ctx, w, row);
    if next.records != w.records {
      var last := next.records[|w.records|];
      assert next.records == w.records + [last];
      FilterAppend(RecordTest(ticker), w.records, [last]);
      assert [last][1..] == [];
    }
  }

  lemma {:induction false} OtherRowsKeep(
    ctx: Context, w: Writer, rows: seq<BrokerRow>, ticker: string)
    requires forall r :: r in rows ==> !IsOf(ticker, r)
    ensures SameFor(w, Absorb(ctx, w, rows), ticker)
    decreases |rows|
  {
    if rows != [] {
      assert rows[0] in rows;
      OtherRowKeeps(ctx, w, rows[0], ticker);
      OtherRowsKeep(ctx, AbsorbRow(ctx, w, rows[0]), rows[1..], ticker);
    }
  }

  // ---- one row -------------------------------------------------------------------------------

  /** The shares of a row that are not saved yet: all of them without an order. */
  function Unbooked(ctx: Context, w: Writer, row: BrokerRow): int {
    if row.orderNo == "" then row.quantity
    else row.quantity - w.Saved(CumulativeKey(row.orderNo, row.ticker, row.side, ctx.isMock))
  }

  /** A buy adds its cost to the cost of what is held; a sell leaves the cost of a share as it was. */
  predicate Moves(held: Position, after: Position, side: Side, price: real, quantity: int) {
    match side
    case Buy =>
      && after.price.Some?
      && if held.quantity <= 0 || held.price.None?
         then after == Position(quantity, Some(price))
         else
           && after.quantity == held.quantity + quantity
           && after.price.value * after.quantity as real
              == held.price.value * held.quantity as real + price * quantity as real
    case Sell =>
      after == if held.quantity <= 0 then held
               else if quantity >= held.quantity then Position(0, None)
               else Position(held.quantity - quantity, held.price)
    case Other(_) => after == held
  }

  /** The price difference on each share, and over the cost. */
  function Gain(cost: real, price: real, quantity: int): real { (price - cost) * quantity as real }

  function GainRate(cost: real, price: real): real
    requires cost > 0.0
  {
    (price - cost) / cost
  }

  lemma GainIsRealized(cost: real, price: real, quantity: int)
    requires cost > 0.0
    ensures RealizedProfit(Sell, price, quantity, Some(cost))
         == (Some(Gain(cost, price, quantity)), Some(GainRate(cost, price)))
  {
    var (profit, rate) := RealizedProfit(Sell, price, quantity, Some(cost));
    assert profit.Some? && rate.Some?;
    assert profit.value == (price - Some(cost).value) * quantity as real;
    assert profit.value == Gain(cost, price, quantity);
    assert rate.value == GainRate(cost, price);
  }

  /** A sell earns its price over a known positive cost, on each share; nothing else earns. */
  predicate Earns(profit: Option<real>, rate: Option<real>, held: Position, side: Side, price: real,
                  quantity: int)
  {
    if side.Sell? && held.price.Some? && held.price.value > 0.0 then
      && profit == Some(Gain(held.price.value, price, quantity))
      && rate == Some(GainRate(held.price.value, price))
    else profit.None? && rate.None?
  }

  /** A record of `quantity` shares of the row. */
  predicate Records(r: FillRecord, row: BrokerRow, ctx: Context, quantity: int) {
    && row.tradeDate == Some(r.tradeDate) && r.fillTime == row.timeText && r.ticker == row.ticker
    && r.name == row.name && r.side == row.side && r.quantity == quantity
    && r.price == row.price && r.orderNo == row.orderNo && r.isMock == ctx.isMock
    && r.amount == (if row.orderNo == "" then row.total else row.price * quantity as real)
    && r.entryReason == (if row.ticker in ctx.reasons then Some(ctx.reasons[row.ticker]) else None)
  }

  /** One record of these shares is added, and the position moves with them. */
  ghost predicate BooksShares(
    held: Position, records: seq<FillRecord>, next: Writer, row: BrokerRow, ctx: Context, quantity: int)
  {
    && Moves(held, next.Held(row.ticker), row.side, row.price, quantity)
    && exists r :: next.records == records + [r] && Records(r, row, ctx, quantity)
                   && Earns(r.profit, r.profitRate, held, row.side, row.price, quantity)
  }

  /** The highest quantity seen of the row's order is saved, and of no other. */
  ghost predicate Saves(ctx: Context, w: Writer, next: Writer, row: BrokerRow) {
    forall key: CumulativeKey ::
      next.Saved(key)
      == if row.orderNo != "" && key == CumulativeKey(row.orderNo, row.ticker, row.side, ctx.isMock)
            && row.quantity > w.Saved(key) then row.quantity else w.Saved(key)
  }

  /** What a row does to the writer, and nothing to other tickers. */
  ghost predicate Books(ctx: Context, w: Writer, next: Writer, row: BrokerRow) {
    var quantity, held := Unbooked(ctx, w, row), w.Held(row.ticker);
    if row.ticker == "" || row.quantity <= 0 || row.tradeDate.None? then next == w
    else
      && (forall ticker :: ticker != row.ticker ==> next.Held(ticker) == w.Held(ticker))
      && Saves(ctx, w, next, row)
      && if quantity <= 0 then next.records == w.records && next.Held(row.ticker) == held
         else BooksShares(held, w.records, next, row, ctx, quantity)
  }

  lemma AverageStated(a: real, m: int, b: real, n: int)
    requires m + n != 0
    ensures WeightedAverage(a, m, b, n) * (m + n) as real == a * m as real + b * n as real
  {
  }

  lemma MovesStated(held: Position, price: real, quantity: int)
    requires quantity > 0
    ensures Moves(held, NextEntry(held, quantity, price), Buy, price, quantity)
    ensures Moves(held, RemainingEntry(held, quantity), Sell, price, quantity)
  {
    if held.quantity > 0 && held.price.Some? {
      AverageStated(held.price.value, held.quantity, price, quantity);
    }
  }

  lemma EarnsStated(held: Position, side: Side, price: real, quantity: int)
    ensures var (profit, rate) := RealizedProfit(side, price, quantity, held.price);
            Earns(profit, rate, held, side, price, quantity)
  {
    if side.Sell? && held.price.Some? && held.price.value > 0.0 {
      GainIsRealized(held.price.value, price, quantity);
    }
  }

  lemma BookStated(ctx: Context, w: Writer, row: BrokerRow, quantity: int, amount: real)
    requires ValidRow(row) && quantity > 0
    requires amount == if row.orderNo == "" then row.total else Notional(row.price, quantity)
    ensures var next := Book(ctx, w, row, quantity, amount);
            && next.cumulative == w.cumulative
            && (forall ticker :: ticker != row.ticker ==> next.Held(ticker) == w.Held(ticker))
            && BooksShares(w.Held(row.ticker), w.records, next, row, ctx, quantity)
  {
    var next, held := Book(ctx, w, row, quantity, amount), w.Held(row.ticker);
    MovesStated(held, row.price, quantity);
    EarnsStated(held, row.side, row.price, quantity);
    var r := next.records[|w.records|];
    assert next.records == w.records + [r];
    assert Records(r, row, ctx, quantity);
    assert Earns(r.profit, r.profitRate, held, row.side, row.price, quantity);
  }

  lemma OrderedRowStated(ctx: Context, w: Writer, row: BrokerRow)
    requires ValidRow(row) && row.orderNo != ""
    ensures Books(ctx, w, AbsorbRow(ctx, w, row), row)
  {
    var quantity, key := Unbooked(ctx, w, row), RowKey(ctx.isMock, row);
    var seen := w.(cumulative := w.cumulative[key := Max(w.Saved(key), row.quantity)]);
    assert Saves(ctx, w, seen, row);
    if quantity > 0 {
      BookStated(ctx, seen, row, quantity, Notional(row.price, quantity));
      assert AbsorbRow(ctx, w, row) == Book(ctx, seen, row, quantity, Notional(row.price, quantity));
    }
  }

  /**
   * Each row books the shares that its order has filled beyond what is saved: a record of them, the
   * position they leave and what a sell earns over its cost.
   */
  lemma RowStated(ctx: Context, w: Writer, row: BrokerRow)
    ensures Books(ctx, w, AbsorbRow(ctx, w, row), row)
  {
    if ValidRow(row) && row.orderNo != "" {
      OrderedRowStated(ctx, w, row);
    } else if ValidRow(row) {
      BookStated(ctx, w, row, row.quantity, row.total);
    }
  }

  // ---- a round trip --------------------------------------------------------------------------

  /** The row is booked with its whole quantity: it has no order, or nothing of it is saved yet. */
  predicate Unsaved(ctx: Context, existing: map<CumulativeKey, int>, row: BrokerRow) {
    row.orderNo != "" ==>
      var key := CumulativeKey(row.orderNo, row.ticker, row.side, ctx.isMock);
      key in existing ==> existing[key] == 0
  }

  /** The only rows of a ticker: a buy, and later in session time a sell of no more than was bought. */
  ghost predicate RoundTrip(fills: seq<BrokerRow>, buy: BrokerRow, sell: BrokerRow) {
    && multiset(fills)[buy] == 1 && multiset(fills)[sell] == 1
    && ValidRow(buy) && ValidRow(sell) && buy.ticker == sell.ticker
    && buy.side.Buy? && sell.side.Sell? && buy.price > 0.0 && sell.quantity <= buy.quantity
    && Precedes(buy, sell)
    && forall r :: r in fills && IsOf(buy.ticker, r) ==> r == buy || r == sell
  }

  lemma BookedRows(fills: seq<BrokerRow>, buy: BrokerRow, sell: BrokerRow)
    returns (i: nat, j: nat)
    requires RoundTrip(fills, buy, sell)
    ensures i < j < |Sort(RowLeq, fills)|
    ensures Sort(RowLeq, fills)[i] == buy && Sort(RowLeq, fills)[j] == sell
    ensures forall k :: 0 <= k < |Sort(RowLeq, fills)| && k != i && k != j ==>
                          !IsOf(buy.ticker, Sort(RowLeq, fills)[k])
  {
    RowOrderTotal();
    SortSorts(RowLeq, fills);
    var rows := Sort(RowLeq, fills);
    LengthOfMultiset(rows, fills);
    PermutationMembers(rows, fills);
    assert multiset(fills)[buy] > 0 && multiset(fills)[sell] > 0;
    assert buy in rows && sell in rows;
    i :| 0 <= i < |rows| && rows[i] == buy;
    j :| 0 <= j < |rows| && rows[j] == sell;
    if j < i {
      BookedInSessionOrder(fills, j, i);
      assert false;
    }
    forall k | 0 <= k < |rows| && k != i && k != j ensures !IsOf(buy.ticker, rows[k]) {
      OncePlaced(rows, buy, i, k);
      OncePlaced(rows, sell, j, k);
      assert rows[k] in fills;
    }
  }

  lemma OncePlaced<T>(s: seq<T>, x: T, i: nat, k: nat)
    requires i < |s| && k < |s| && i != k && s[i] == x && multiset(s)[x] == 1
    ensures s[k] != x
  {
    var low, high := Min(i, k), Max(i, k);
    var front, back := s[..high], s[high..];
    assert s == front + back;
    assert multiset(s) == multiset(front) + multiset(back);
    assert front[low] in multiset(front) && back[0] in multiset(back);
  }

  /** The record of a row booked with its whole quantity, for the given profit and rate. */
  ghost predicate IsRecordOf(
    r: FillRecord, row: BrokerRow, profit: Option<real>, rate: Option<real>, isMock: bool)
  {
    && row.tradeDate == Some(r.tradeDate) && r.fillTime == row.timeText && r.ticker == row.ticker
    && r.name == row.name && r.side == row.side && r.quantity == row.quantity
    && r.price == row.price && r.orderNo == row.orderNo && r.isMock == isMock
    && r.amount == (if row.orderNo == "" then row.total else row.price * row.quantity as real)
    && r.profit == profit && r.profitRate == rate
  }

  lemma RecordAdded(w: Writer, next: Writer, r: FillRecord, ticker: string)
    requires next.records == w.records + [r] && r.ticker == ticker
    ensures RecordsOf(next, ticker) == RecordsOf(w, ticker) + [r]
  {
    FilterAppend(RecordTest(ticker), w.records, [r]);
    assert [r][1..] == [];
  }

  lemma BuyBooked(ctx: Context, w: Writer, buy: BrokerRow) returns (r: FillRecord)
    requires ValidRow(buy) && buy.side.Buy? && w.Held(buy.ticker).quantity == 0
    requires buy.orderNo != "" ==> w.Saved(RowKey(ctx.isMock, buy)) == 0
    ensures var next := AbsorbRow(ctx, w, buy);
            && next.Held(buy.ticker) == Position(buy.quantity, Some(buy.price))
            && RecordsOf(next, buy.ticker) == RecordsOf(w, buy.ticker) + [r]
            && (forall key: CumulativeKey :: key.side.Sell? ==> next.Saved(key) == w.Saved(key))
    ensures IsRecordOf(r, buy, None, None, ctx.isMock)
  {
    var next := AbsorbRow(ctx, w, buy);
    r := next.records[|w.records|];
    RecordAdded(w, next, r, buy.ticker);
  }

  lemma SellBooked(ctx: Context, w: Writer, sell: BrokerRow, held: int, cost: real)
    returns (r: FillRecord)
    requires ValidRow(sell) && sell.side.Sell? && cost > 0.0
    requires w.Held(sell.ticker) == Position(held, Some(cost)) && sell.quantity <= held
    requires sell.orderNo != "" ==> w.Saved(RowKey(ctx.isMock, sell)) == 0
    ensures var next := AbsorbRow(ctx, w, sell);
            && next.Held(sell.ticker).quantity == held - sell.quantity
            && RecordsOf(next, sell.ticker) == RecordsOf(w, sell.ticker) + [r]
    ensures IsRecordOf(
              r, sell, Some(Gain(cost, sell.price, sell.quantity)), Some(GainRate(cost, sell.price)),
              ctx.isMock)
  {
    GainIsRealized(cost, sell.price, sell.quantity);
    var next := AbsorbRow(ctx, w, sell);
    r := next.records[|w.records|];
    RecordAdded(w, next, r, sell.ticker);
  }

  lemma AroundTwo<T>(s: seq<T>, i: nat, j: nat)
    requires i < j < |s|
    ensures s == s[..i] + ([s[i]] + (s[i + 1..j] + ([s[j]] + s[j + 1..])))
  {
  }

  /** Rows of other tickers before a fresh row of this one leave nothing that it depends on. */
  lemma OthersComeFirst(
    ctx: Context, seeds: map<string, real>, existing: map<CumulativeKey, int>,
    before: seq<BrokerRow>, row: BrokerRow)
    requires (forall r :: r in before ==> !IsOf(row.ticker, r)) && Unsaved(ctx, existing, row)
    ensures var w := Absorb(ctx, Opening(seeds, existing), before);
            && w.Held(row.ticker).quantity == 0 && RecordsOf(w, row.ticker) == []
            && (row.orderNo != "" ==> w.Saved(RowKey(ctx.isMock, row)) == 0)
  {
    OtherRowsKeep(ctx, Opening(seeds, existing), before, row.ticker);
    assert RecordsOf(Opening(seeds, existing), row.ticker) == [];
  }

  /**
   * A buy and a later sell of no more than was bought, the only fills of their ticker, give two
   * records in that order: the sell earns the price difference on each share, and the rate is that
   * difference over the buying price, in whatever order the rows arrive.
   */
  lemma RoundTripEarns(
    ctx: Context, fills: seq<BrokerRow>, seeds: map<string, real>,
    existing: map<CumulativeKey, int>, buy: BrokerRow, sell: BrokerRow)
    requires RoundTrip(fills, buy, sell)
    requires Unsaved(ctx, existing, buy) && Unsaved(ctx, existing, sell)
    ensures var last := FinalWriter(ctx, fills, seeds, existing);
            var records := RecordsOf(last, buy.ticker);
            && |records| == 2 && IsRecordOf(records[0], buy, None, None, ctx.isMock)
            && IsRecordOf(
                 records[1], sell, Some(Gain(buy.price, sell.price, sell.quantity)),
                 Some(GainRate(buy.price, sell.price)), ctx.isMock)
            && last.Held(buy.ticker).quantity == buy.quantity - sell.quantity
  {
    var rows, start := Sort(RowLeq, fills), Opening(seeds, existing);
    var i, j := BookedRows(fills, buy, sell);
    var before, between, rest := rows[..i], rows[i + 1..j], rows[j + 1..];
    AroundTwo(rows, i, j);
    AbsorbAppend(ctx, start, before, [buy] + (between + ([sell] + rest)));
    OthersComeFirst(ctx, seeds, existing, before, buy);
    OthersComeFirst(ctx, seeds, existing, before, sell);
    TripBooked(ctx, Absorb(ctx, start, before), buy, between, sell, rest);
  }

  /** From the buy on: it, other rows, the sell and other rows. */
  lemma TripBooked(
    ctx: Context, w: Writer, buy: BrokerRow, between: seq<BrokerRow>, sell: BrokerRow,
    rest: seq<BrokerRow>)
    requires ValidRow(buy) && ValidRow(sell) && buy.ticker == sell.ticker
    requires buy.side.Buy? && sell.side.Sell? && buy.price > 0.0 && sell.quantity <= buy.quantity
    requires forall r :: r in between || r in rest ==> !IsOf(buy.ticker, r)
    requires w.Held(buy.ticker).quantity == 0 && RecordsOf(w, buy.ticker) == []
    requires buy.orderNo != "" ==> w.Saved(RowKey(ctx.isMock, buy)) == 0
    requires sell.orderNo != "" ==> w.Saved(RowKey(ctx.isMock, sell)) == 0
    ensures var last := Absorb(ctx, w, [buy] + (between + ([sell] + rest)));
            var records := RecordsOf(last, buy.ticker);
            && |records| == 2 && IsRecordOf(records[0], buy, None, None, ctx.isMock)
            && IsRecordOf(
                 records[1], sell, Some(Gain(buy.price, sell.price, sell.quantity)),
                 Some(GainRate(buy.price, sell.price)), ctx.isMock)
            && last.Held(buy.ticker).quantity == buy.quantity - sell.quantity
  {
    AbsorbCons(ctx, w, buy, between + ([sell] + rest));
    var bought := AbsorbRow(ctx, w, buy);
    var b := BuyBooked(ctx, w, buy);
    AbsorbAppend(ctx, bought, between, [sell] + rest);
    var later := Absorb(ctx, bought, between);
    OtherRowsKeep(ctx, bought, between, buy.ticker);
    AbsorbCons(ctx, later, sell, rest);
    var r := SellBooked(ctx, later, sell, buy.quantity, buy.price);
    OtherRowsKeep(ctx, AbsorbRow(ctx, later, sell), rest, buy.ticker);
  }

  lemma AbsorbCons(ctx: Context, w: Writer, row: BrokerRow, rows: seq<BrokerRow>)
    ensures Absorb(ctx, w, [row] + rows) == Absorb(ctx, AbsorbRow(ctx, w, row), rows)
  {
    assert ([row] + rows)[1..] == rows;
  }
}
