/** Cumulative snapshots telescope: what is emitted per order is exactly the rise of its high water. */
module FillQuantities {
  import opened Common
  import opened FillWriter
  import opened Sorting

  /** The quantity recorded for one cumulative key. */
  function Emitted(records: seq<FillRecord>, key: CumulativeKey): int {
    if records == [] then 0
    else
      var last := records[|records| - 1];
      Emitted(records[..|records| - 1], key) + if last.Key() == key then last.quantity else 0
  }

  predicate Reports(isMock: bool, row: BrokerRow, key: CumulativeKey) {
    ValidRow(row) && RowKey(isMock, row) == key
  }

  /** The highest cumulative quantity among `base` and the rows that report on `key`. */
  function HighWater(isMock: bool, rows: seq<BrokerRow>, key: CumulativeKey, base: int): int {
    if rows == [] then base
    else
      HighWater(isMock, rows[1..], key,
        if Reports(isMock, rows[0], key) then Max(base, rows[0].quantity) else base)
  }

  /** `high` is an upper bound of `base` and the reports, and is one of them. */
  ghost predicate IsHighWater(
    isMock: bool, rows: seq<BrokerRow>, key: CumulativeKey, base: int, high: int)
  {
    && base <= high
    && (forall r :: r in rows && Reports(isMock, r, key) ==> r.quantity <= high)
    && (high == base || exists r :: r in rows && Reports(isMock, r, key) && r.quantity == high)
  }

  lemma {:induction false} HighWaterIsHighest(
    isMock: bool, rows: seq<BrokerRow>, key: CumulativeKey, base: int)
    ensures IsHighWater(isMock, rows, key, base, HighWater(isMock, rows, key, base))
    decreases |rows|
  {
    if rows == [] {
    } else {
      var raised := if Reports(isMock, rows[0], key) then Max(base, rows[0].quantity) else base;
      HighWaterIsHighest(isMock, rows[1..], key, raised);
      forall r | r in rows && Reports(isMock, r, key)
        ensures r.quantity <= HighWater(isMock, rows, key, base)
      {
        assert r == rows[0] || r in rows[1..];
      }
    }
  }

  lemma HighWaterPermutation(
    isMock: bool, a: seq<BrokerRow>, b: seq<BrokerRow>, key: CumulativeKey, base: int)
    requires forall r :: r in a <==> r in b
    ensures HighWater(isMock, a, key, base) == HighWater(isMock, b, key, base)
  {
    HighWaterIsHighest(isMock, a, key, base);
    HighWaterIsHighest(isMock, b, key, base);
  }

  lemma {:induction false} HighWaterAppend(
    isMock: bool, a: seq<BrokerRow>, b: seq<BrokerRow>, key: CumulativeKey, base: int)
    ensures HighWater(isMock, a + b, key, base)
         == HighWater(isMock, b, key, HighWater(isMock, a, key, base))
    decreases |a|
  {
    if a == [] {
      assert a + b == b;
    } else {
      assert (a + b)[1..] == a[1..] + b;
      var raised := if Reports(isMock, a[0], key) then Max(base, a[0].quantity) else base;
      HighWaterAppend(isMock, a[1..], b, key, raised);
    }
  }

  // ---- one call, rows in any fixed order -------------------------------------

  lemma AbsorbRowTelescopes(ctx: Context, w: Writer, row: BrokerRow, key: CumulativeKey)
    requires key.orderNo != "" && key.isMock == ctx.isMock
    ensures var next := AbsorbRow(ctx, w, row);
            && Emitted(next.records, key) - Emitted(w.records, key) == next.Saved(key) - w.Saved(key)
            && next.Saved(key)
               == (if Reports(ctx.isMock, row, key) then Max(w.Saved(key), row.quantity)
                   else w.Saved(key))
  {
  }

  lemma {:induction false} AbsorbTelescopes(
    ctx: Context, w: Writer, rows: seq<BrokerRow>, key: CumulativeKey)
    requires key.orderNo != "" && key.isMock == ctx.isMock
    ensures var last := Absorb(ctx, w, rows);
            && Emitted(last.records, key) - Emitted(w.records, key) == last.Saved(key) - w.Saved(key)
            && last.Saved(key) == HighWater(ctx.isMock, rows, key, w.Saved(key))
    decreases |rows|
  {
    if rows != [] {
      AbsorbRowTelescopes(ctx, w, rows[0], key);
      AbsorbTelescopes(ctx, AbsorbRow(ctx, w, rows[0]), rows[1..], key);
    }
  }

  // ---- main results for one call ---------------------------------------------

  /** Saved before plus emitted equals the highest quantity seen, whatever order rows arrive in. */
  lemma EmissionTelescopes(
    ctx: Context, fills: seq<BrokerRow>, seeds: map<string, real>,
    existing: map<CumulativeKey, int>, key: CumulativeKey)
    requires key.orderNo != "" && key.isMock == ctx.isMock
    ensures var last := FinalWriter(ctx, fills, seeds, existing);
            var saved := Opening(seeds, existing).Saved(key);
            && saved + Emitted(last.records, key) == HighWater(ctx.isMock, fills, key, saved)
            && last.Saved(key) == HighWater(ctx.isMock, fills, key, saved)
  {
    RowOrderTotal();
    SortSorts(RowLeq, fills);
    var saved := Opening(seeds, existing).Saved(key);
    AbsorbTelescopes(ctx, Opening(seeds, existing), Sort(RowLeq, fills), key);
    HighWaterPermutation(ctx.isMock, Sort(RowLeq, fills), fills, key, saved);
  }

  lemma EmissionIgnoresRowOrder(
    ctx: Context, a: seq<BrokerRow>, b: seq<BrokerRow>, seeds: map<string, real>,
    existing: map<CumulativeKey, int>, key: CumulativeKey)
    requires multiset(a) == multiset(b)
    requires key.orderNo != "" && key.isMock == ctx.isMock
    ensures Emitted(FinalWriter(ctx, a, seeds, existing).records, key)
         == Emitted(FinalWriter(ctx, b, seeds, existing).records, key)
  {
    PermutationMembers(a, b);
    EmissionTelescopes(ctx, a, seeds, existing, key);
    EmissionTelescopes(ctx, b, seeds, existing, key);
    HighWaterPermutation(ctx.isMock, a, b, key, Opening(seeds, existing).Saved(key));
  }

  /** A record carries its row's identity and a positive quantity no larger than the row's. */
  ghost predicate RecordOf(ctx: Context, rows: seq<BrokerRow>, r: FillRecord) {
    exists row ::
      && row in rows && ValidRow(row)
      && r.tradeDate == row.tradeDate.value && r.fillTime == row.timeText
      && r.Key() == RowKey(ctx.isMock, row) && r.price == row.price && r.name == row.name
      && (if row.orderNo == "" then r.quantity == row.quantity && r.amount == row.total
          else r.amount == Notional(row.price, r.quantity))
  }

  lemma {:induction false} AbsorbRecords(ctx: Context, w: Writer, rows: seq<BrokerRow>, all: seq<BrokerRow>)
    requires forall r :: r in rows ==> r in all
    requires forall r :: r in w.records ==> r.quantity > 0 && RecordOf(ctx, all, r)
    ensures forall r :: r in Absorb(ctx, w, rows).records ==> r.quantity > 0 && RecordOf(ctx, all, r)
    decreases |rows|
  {
    if rows != [] {
      var row := rows[0];
      var next := AbsorbRow(ctx, w, row);
      forall r | r in next.records ensures r.quantity > 0 && RecordOf(ctx, all, r) {
        if r !in w.records {
          assert row in all && ValidRow(row);
        }
      }
      AbsorbRecords(ctx, next, rows[1..], all);
    }
  }

  lemma EmittedRecordsArePositive(
    ctx: Context, fills: seq<BrokerRow>, seeds: map<string, real>, existing: map<CumulativeKey, int>)
    ensures forall r :: r in FinalWriter(ctx, fills, seeds, existing).records
              ==> r.quantity > 0 && RecordOf(ctx, fills, r)
  {
    RowOrderTotal();
    SortSorts(RowLeq, fills);
    AbsorbRecords(ctx, Opening(seeds, existing), Sort(RowLeq, fills), fills);
  }

  // ---- polling again ---------------------------------------------------------

  lemma {:induction false} EmittedNonNegative(records: seq<FillRecord>, key: CumulativeKey)
    requires forall r :: r in records ==> r.quantity > 0
    ensures Emitted(records, key) >= 0
    ensures Emitted(records, key) == 0 <==> forall r :: r in records ==> r.Key() != key
    decreases |records|
  {
    if records != [] {
      var front := records[..|records| - 1];
      EmittedNonNegative(front, key);
      assert forall r :: r in records <==> r in front || r == records[|records| - 1];
    }
  }

  /** An order is emitted again if and only if some row reports more than is already saved. */
  lemma RepollEmitsIffRisen(
    ctx: Context, fills: seq<BrokerRow>, seeds: map<string, real>,
    existing: map<CumulativeKey, int>, key: CumulativeKey)
    requires key.orderNo != "" && key.isMock == ctx.isMock
    ensures (exists r :: r in FinalWriter(ctx, fills, seeds, existing).records && r.Key() == key)
       <==> (exists row :: row in fills && Reports(ctx.isMock, row, key)
                           && row.quantity > Opening(seeds, existing).Saved(key))
  {
    EmissionTelescopes(ctx, fills, seeds, existing, key);
    EmittedRecordsArePositive(ctx, fills, seeds, existing);
    EmittedNonNegative(FinalWriter(ctx, fills, seeds, existing).records, key);
    HighWaterIsHighest(ctx.isMock, fills, key, Opening(seeds, existing).Saved(key));
  }

  /** Feeding the same rows back with the quantities just saved emits no order-numbered record. */
  lemma RepollIsSilent(
    ctx: Context, fills: seq<BrokerRow>, seeds: map<string, real>, seeds': map<string, real>,
    existing: map<CumulativeKey, int>)
    ensures var saved := FinalWriter(ctx, fills, seeds, existing).cumulative;
            forall r :: r in FinalWriter(ctx, fills, seeds', saved).records ==> r.orderNo == ""
  {
    var first := FinalWriter(ctx, fills, seeds, existing);
    var second := FinalWriter(ctx, fills, seeds', first.cumulative);
    EmittedRecordsArePositive(ctx, fills, seeds', first.cumulative);
    forall r | r in second.records ensures r.orderNo == "" {
      if r.orderNo != "" {
        var key := r.Key();
        RepollEmitsIffRisen(ctx, fills, seeds', first.cumulative, key);
        EmissionTelescopes(ctx, fills, seeds, existing, key);
        HighWaterIsHighest(ctx.isMock, fills, key, Opening(seeds, existing).Saved(key));
        assert false;
      }
    }
  }
}
