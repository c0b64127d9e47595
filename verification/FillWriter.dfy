/** Turns repeated cumulative broker snapshots into delta fill records with realized profit. */
module FillWriter {
  import opened Common
  import opened Sorting

  datatype Side = Buy | Sell | Other(text: string)

  datatype Clock = Clock(hour: int, minute: int, second: int)

  /** One broker row, already parsed: `None` marks a date or time text that does not parse. */
  datatype BrokerRow = BrokerRow(
    dateText: string, tradeDate: Option<int>, timeText: string, clock: Option<Clock>,
    ticker: string, name: string, side: Side, quantity: int, price: real, total: real,
    orderNo: string)

  datatype CumulativeKey = CumulativeKey(orderNo: string, ticker: string, side: Side, isMock: bool)

  /** Shares held and their average cost; `None` when no cost is known. */
  datatype Position = Position(quantity: int, price: Option<real>)

  const FLAT := Position(0, None)

  datatype FillRecord = FillRecord(
    tradeDate: int, fillTime: string, ticker: string, name: string, side: Side, quantity: int,
    price: real, amount: real, orderNo: string, profit: Option<real>, profitRate: Option<real>,
    entryReason: Option<(string, string)>, isMock: bool)
  {
    function Key(): CumulativeKey { CumulativeKey(orderNo, ticker, side, isMock) }
  }

  /** What one call reads besides the rows. */
  datatype Context = Context(isMock: bool, reasons: map<string, (string, string)>)

  /** The loop's state: cost positions, highest cumulative quantity per key, emitted records. */
  datatype Writer = Writer(
    entries: map<string, Position>, cumulative: map<CumulativeKey, int>, records: seq<FillRecord>)
  {
    function Held(ticker: string): Position {
      if ticker in entries then entries[ticker] else FLAT
    }

    function Saved(key: CumulativeKey): int {
      if key in cumulative then cumulative[key] else 0
    }
  }

  // ---- ordering -------------------------------------------------------------

  /** The US session runs past midnight in Korean time, so hours before noon come last. */
  function SessionSecond(clock: Option<Clock>): int {
    match clock
    case None => 0
    case Some(c) => (if c.hour < 12 then c.hour + 24 else c.hour) * 3600 + c.minute * 60 + c.second
  }

  predicate RowLeq(a: BrokerRow, b: BrokerRow) {
    if a.dateText != b.dateText then TextLeq(a.dateText, b.dateText)
    else if SessionSecond(a.clock) != SessionSecond(b.clock) then
      SessionSecond(a.clock) < SessionSecond(b.clock)
    else TextLeq(a.orderNo, b.orderNo)
  }

  lemma RowOrderTotal()
    ensures Total(RowLeq)
  {
    forall x, y ensures RowLeq(x, y) || RowLeq(y, x) {
      TextLeqTotal(x.dateText, y.dateText);
      TextLeqTotal(x.orderNo, y.orderNo);
    }
    forall x, y, z | RowLeq(x, y) && RowLeq(y, z) ensures RowLeq(x, z) {
      RowLeqTransitive(x, y, z);
    }
  }

  lemma RowLeqTransitive(x: BrokerRow, y: BrokerRow, z: BrokerRow)
    requires RowLeq(x, y) && RowLeq(y, z)
    ensures RowLeq(x, z)
  {
    if x.dateText == y.dateText == z.dateText {
      if SessionSecond(x.clock) == SessionSecond(y.clock) == SessionSecond(z.clock) {
        TextLeqTransitive(x.orderNo, y.orderNo, z.orderNo);
      }
    } else {
      TextLeqReflexive(y.dateText);
      TextLeqTransitive(x.dateText, y.dateText, z.dateText);
      if x.dateText == z.dateText {
        TextLeqAntisymmetric(x.dateText, y.dateText);
      }
    }
  }

  // ---- one row --------------------------------------------------------------

  predicate ValidRow(row: BrokerRow) {
    row.ticker != "" && row.quantity > 0 && row.tradeDate.Some?
  }

  function RowKey(isMock: bool, row: BrokerRow): CumulativeKey {
    CumulativeKey(row.orderNo, row.ticker, row.side, isMock)
  }

  function Notional(price: real, quantity: int): real { price * quantity as real }

  function WeightedAverage(a: real, m: int, b: real, n: int): real
    requires m + n != 0
  {
    (Notional(a, m) + Notional(b, n)) / (m + n) as real
  }

  function NextEntry(current: Position, quantity: int, price: real): Position
    requires quantity > 0
  {
    if current.quantity <= 0 || current.price.None? then
      Position(quantity, Some(price))
    else
      Position(
        current.quantity + quantity,
        Some(WeightedAverage(current.price.value, current.quantity, price, quantity)))
  }

  function RemainingEntry(current: Position, quantity: int): Position {
    if current.quantity <= 0 then current
    else
      var remaining := Max(0, current.quantity - quantity);
      Position(remaining, if remaining > 0 then current.price else None)
  }

  function RealizedProfit(side: Side, price: real, quantity: int, entry: Option<real>)
    : (Option<real>, Option<real>)
  {
    if !side.Sell? || entry.None? || entry.value <= 0.0 then (None, None)
    else (Some((price - entry.value) * quantity as real), Some((price - entry.value) / entry.value))
  }

  /** The ticker's position once a buy is added in, which is the cost basis a fill is booked at. */
  function Basis(w: Writer, row: BrokerRow, quantity: int): Position
    requires quantity > 0
  {
    if row.side.Buy? then NextEntry(w.Held(row.ticker), quantity, row.price) else w.Held(row.ticker)
  }

  function Book(ctx: Context, w: Writer, row: BrokerRow, quantity: int, amount: real): Writer
    requires ValidRow(row) && quantity > 0
  {
    var basis := Basis(w, row, quantity);
    var (profit, rate) := RealizedProfit(row.side, row.price, quantity, basis.price);
    var entries :=
      if row.side.Buy? then w.entries[row.ticker := basis]
      else if row.side.Sell? then w.entries[row.ticker := RemainingEntry(basis, quantity)]
      else w.entries;
    var reason := if row.ticker in ctx.reasons then Some(ctx.reasons[row.ticker]) else None;
    Writer(entries, w.cumulative, w.records + [FillRecord(
      row.tradeDate.value, row.timeText, row.ticker, row.name, row.side, quantity, row.price,
      amount, row.orderNo, profit, rate, reason, ctx.isMock)])
  }

  /** The quantity a row adds: the rise above the saved cumulative, or its own without an order. */
  function Delta(ctx: Context, w: Writer, row: BrokerRow): int {
    if row.orderNo == "" then row.quantity
    else row.quantity - w.Saved(RowKey(ctx.isMock, row))
  }

  function AbsorbRow(ctx: Context, w: Writer, row: BrokerRow): Writer {
    if !ValidRow(row) then w
    else if row.orderNo == "" then Book(ctx, w, row, row.quantity, row.total)
    else
      var key := RowKey(ctx.isMock, row);
      var seen := w.(cumulative := w.cumulative[key := Max(w.Saved(key), row.quantity)]);
      var delta := Delta(ctx, w, row);
      if delta <= 0 then seen else Book(ctx, seen, row, delta, Notional(row.price, delta))
  }

  function Absorb(ctx: Context, w: Writer, rows: seq<BrokerRow>): Writer
    decreases |rows|
  {
    if rows == [] then w else Absorb(ctx, AbsorbRow(ctx, w, rows[0]), rows[1..])
  }

  lemma {:induction false} AbsorbAppend(ctx: Context, w: Writer, a: seq<BrokerRow>, b: seq<BrokerRow>)
    ensures Absorb(ctx, w, a + b) == Absorb(ctx, Absorb(ctx, w, a), b)
    decreases |a|
  {
    if a == [] {
      assert a + b == b;
    } else {
      assert (a + b)[1..] == a[1..] + b;
      AbsorbAppend(ctx, AbsorbRow(ctx, w, a[0]), a[1..], b);
    }
  }

  lemma AbsorbOne(ctx: Context, w: Writer, row: BrokerRow)
    ensures Absorb(ctx, w, [row]) == AbsorbRow(ctx, w, row)
  {
  }

  function Opening(seeds: map<string, real>, existing: map<CumulativeKey, int>): Writer {
    Writer(map t | t in seeds :: Position(0, Some(seeds[t])), existing, [])
  }

  /** Everything one call computes, as a function of its arguments. */
  function FinalWriter(
    ctx: Context, fills: seq<BrokerRow>, seeds: map<string, real>,
    existing: map<CumulativeKey, int>): Writer
  {
    Absorb(ctx, Opening(seeds, existing), Sort(RowLeq, fills))
  }

  method FillRecordsFromMonitorRows(
    fills: seq<BrokerRow>, seeds: map<string, real>, reasons: map<string, (string, string)>,
    isMock: bool, existing: map<CumulativeKey, int>) returns (records: seq<FillRecord>)
    ensures records == FinalWriter(Context(isMock, reasons), fills, seeds, existing).records
  {
    ghost var ctx := Context(isMock, reasons);
    records := [];
    var entries := map t | t in seeds :: Position(0, Some(seeds[t]));
    var cumulative := existing;
    var rows := Sort(RowLeq, fills);
    for i := 0 to |rows|
      invariant Writer(entries, cumulative, records)
             == Absorb(ctx, Opening(seeds, existing), rows[..i])
    {
      var row := rows[i];
      ghost var before := Writer(entries, cumulative, records);
      assert rows[..i + 1] == rows[..i] + [row];
      AbsorbAppend(ctx, Opening(seeds, existing), rows[..i], [row]);
      AbsorbOne(ctx, before, row);
      if row.ticker == "" || row.quantity <= 0 || row.tradeDate.None? {
        continue;
      }
      var quantity := row.quantity;
      var amount := row.total;
      if row.orderNo != "" {
        var key := CumulativeKey(row.orderNo, row.ticker, row.side, isMock);
        var saved := if key in cumulative then cumulative[key] else 0;
        var delta := quantity - saved;
        cumulative := cumulative[key := Max(saved, quantity)];
        if delta <= 0 {
          continue;
        }
        quantity := delta;
        amount := Notional(row.price, quantity);
      }
      if row.side.Buy? {
        var current := if row.ticker in entries then entries[row.ticker] else FLAT;
        entries := entries[row.ticker := NextEntry(current, quantity, row.price)];
      }
      var held := if row.ticker in entries then entries[row.ticker] else FLAT;
      var (profit, rate) := RealizedProfit(row.side, row.price, quantity, held.price);
      if row.side.Sell? {
        entries := entries[row.ticker := RemainingEntry(held, quantity)];
      }
      var reason := if row.ticker in reasons then Some(reasons[row.ticker]) else None;
      records := records + [FillRecord(
        row.tradeDate.value, row.timeText, row.ticker, row.name, row.side, quantity, row.price,
        amount, row.orderNo, profit, rate, reason, isMock)];
      ghost var seen := before.(cumulative := cumulative);
      assert AbsorbRow(ctx, before, row) == Book(ctx, seen, row, quantity, amount);
    }
    assert rows[..|rows|] == rows;
  }
}
