/** Repeated polls through the fill table, which merges a record into an identical stored row. */
module FillPolls {
  import opened Common
  import opened FillQuantities
  import opened FillWriter
  import opened Sorting

  /** The columns the table compares before it inserts. */
  datatype FillId = FillId(
    tradeDate: int, orderNo: string, fillTime: string, ticker: string, side: Side, quantity: int,
    price: real, isMock: bool)

  function Id(r: FillRecord): FillId {
    FillId(r.tradeDate, r.orderNo, r.fillTime, r.ticker, r.side, r.quantity, r.price, r.isMock)
  }

  /** An identical row keeps its place and takes the newer profit; a stored reason is kept. */
  function Refreshed(stored: FillRecord, r: FillRecord): FillRecord {
    if Id(stored) != Id(r) then stored
    else stored.(profit := r.profit, profitRate := r.profitRate,
      entryReason := if stored.entryReason.Some? then stored.entryReason else r.entryReason)
  }

  predicate Stored(table: seq<FillRecord>, id: FillId) {
    exists i :: 0 <= i < |table| && Id(table[i]) == id
  }

  function RefreshAll(table: seq<FillRecord>, r: FillRecord): (refreshed: seq<FillRecord>)
    ensures |refreshed| == |table|
    ensures forall i :: 0 <= i < |table| ==> refreshed[i] == Refreshed(table[i], r)
  {
    if table == [] then [] else [Refreshed(table[0], r)] + RefreshAll(table[1..], r)
  }

  function SaveFill(table: seq<FillRecord>, r: FillRecord): seq<FillRecord> {
    if Stored(table, Id(r)) then RefreshAll(table, r) else table + [r]
  }

  function SaveFills(table: seq<FillRecord>, records: seq<FillRecord>): seq<FillRecord> {
    if records == [] then table
    else SaveFill(SaveFills(table, records[..|records| - 1]), records[|records| - 1])
  }

  /** The quantity the table holds for a key on one trading day. */
  function StoredQuantity(table: seq<FillRecord>, day: int, key: CumulativeKey): int {
    if table == [] then 0
    else
      var last := table[|table| - 1];
      StoredQuantity(table[..|table| - 1], day, key)
        + if last.tradeDate == day && last.Key() == key then last.quantity else 0
  }

  /** What the next call is given as already saved: one sum per order-numbered key of the day. */
  function CumulativeQuantities(table: seq<FillRecord>, day: int, isMock: bool)
    : map<CumulativeKey, int>
  {
    var keys := set r | r in table && r.tradeDate == day && r.isMock == isMock && r.orderNo != ""
                  :: r.Key();
    map key | key in keys :: StoredQuantity(table, day, key)
  }

  datatype Poll = Poll(fills: seq<BrokerRow>, seeds: map<string, real>, reasons: map<string, (string, string)>)

  function PollRecords(table: seq<FillRecord>, day: int, isMock: bool, poll: Poll): seq<FillRecord> {
    FinalWriter(
      Context(isMock, poll.reasons), poll.fills, poll.seeds,
      CumulativeQuantities(table, day, isMock)).records
  }

  function RunPoll(table: seq<FillRecord>, day: int, isMock: bool, poll: Poll): seq<FillRecord> {
    SaveFills(table, PollRecords(table, day, isMock, poll))
  }

  function RunPolls(table: seq<FillRecord>, day: int, isMock: bool, polls: seq<Poll>): seq<FillRecord>
    decreases |polls|
  {
    if polls == [] then table
    else RunPolls(RunPoll(table, day, isMock, polls[0]), day, isMock, polls[1..])
  }

  /** Every usable row of the poll is dated `day`. */
  ghost predicate DatedOn(poll: Poll, day: int) {
    forall r :: r in poll.fills && ValidRow(r) ==> r.tradeDate == Some(day)
  }

  // ---- what the statements do --------------------------------------------------

  /** The rows agree on the columns that the insert compares. */
  predicate SameFill(a: FillRecord, b: FillRecord) {
    && a.tradeDate == b.tradeDate && a.orderNo == b.orderNo && a.fillTime == b.fillTime
    && a.ticker == b.ticker && a.side == b.side && a.quantity == b.quantity && a.price == b.price
    && a.isMock == b.isMock
  }

  /** The newer profit, and the newer reason where there was none; nothing else changes. */
  predicate Updates(before: FillRecord, after: FillRecord, r: FillRecord) {
    && after == before.(profit := after.profit, profitRate := after.profitRate,
                        entryReason := after.entryReason)
    && after.profit == r.profit && after.profitRate == r.profitRate
    && after.entryReason == if before.entryReason.None? then r.entryReason else before.entryReason
  }

  /** A record updates the rows it agrees with; a row is inserted only if there are none. */
  lemma SaveStated(table: seq<FillRecord>, r: FillRecord)
    ensures var saved := SaveFill(table, r);
            if exists s :: s in table && SameFill(s, r) then
              |saved| == |table|
              && forall i :: 0 <= i < |table| ==>
                   if SameFill(table[i], r) then Updates(table[i], saved[i], r) else saved[i] == table[i]
            else saved == table + [r]
  {
    forall i | 0 <= i < |table| ensures SameFill(table[i], r) <==> Id(table[i]) == Id(r) {
    }
  }

  function SharesOn(day: int, key: CumulativeKey): FillRecord -> int {
    (r: FillRecord) =>
      if r.tradeDate == day && r.orderNo == key.orderNo && r.ticker == key.ticker
         && r.side == key.side && r.isMock == key.isMock then r.quantity else 0
  }

  lemma {:induction false} StoredStated(table: seq<FillRecord>, day: int, key: CumulativeKey)
    ensures StoredQuantity(table, day, key) == SumInt(SharesOn(day, key), table)
  {
    if table != [] {
      var front, last := table[..|table| - 1], table[|table| - 1];
      StoredStated(front, day, key);
      SumIntAppend(SharesOn(day, key), front, [last]);
      assert table == front + [last] && [last][1..] == [];
    }
  }

  /** The saved quantities are the sums of the day's rows per order, for orders that have a number. */
  lemma SavedQuantitiesStated(table: seq<FillRecord>, day: int, isMock: bool, key: CumulativeKey)
    ensures var saved := CumulativeQuantities(table, day, isMock);
            && (key in saved <==>
                  key.orderNo != "" && key.isMock == isMock
                  && exists r :: r in table && r.tradeDate == day && r.orderNo == key.orderNo
                                 && r.ticker == key.ticker && r.side == key.side && r.isMock == isMock)
            && (key in saved ==> saved[key] == SumInt(SharesOn(day, key), table))
  {
    StoredStated(table, day, key);
  }

  // ---- saving ----------------------------------------------------------------

  /** No record of `key` is identical to a stored row or to an earlier record of the batch. */
  ghost predicate Distinguishable(
    table: seq<FillRecord>, records: seq<FillRecord>, key: CumulativeKey)
  {
    forall i :: 0 <= i < |records| && records[i].Key() == key ==>
      !Stored(table, Id(records[i])) && forall j :: 0 <= j < i ==> Id(records[j]) != Id(records[i])
  }

  lemma StoredQuantityAppend(table: seq<FillRecord>, r: FillRecord, day: int, key: CumulativeKey)
    ensures StoredQuantity(table + [r], day, key)
         == StoredQuantity(table, day, key)
            + if r.tradeDate == day && r.Key() == key then r.quantity else 0
  {
  }

  lemma {:induction false} RefreshKeepsQuantity(
    table: seq<FillRecord>, refreshed: seq<FillRecord>, r: FillRecord, day: int, key: CumulativeKey)
    requires |refreshed| == |table|
    requires forall i :: 0 <= i < |table| ==> refreshed[i] == Refreshed(table[i], r)
    ensures StoredQuantity(refreshed, day, key) == StoredQuantity(table, day, key)
  {
    if table != [] {
      var n := |table| - 1;
      RefreshKeepsQuantity(table[..n], refreshed[..n], r, day, key);
      assert refreshed[n] == Refreshed(table[n], r);
    }
  }

  lemma SaveFillAddsId(table: seq<FillRecord>, r: FillRecord, id: FillId)
    ensures Stored(SaveFill(table, r), id) <==> Stored(table, id) || id == Id(r)
  {
    var saved := SaveFill(table, r);
    if Stored(table, id) {
      var i :| 0 <= i < |table| && Id(table[i]) == id;
      assert Id(saved[i]) == id;
    }
    if id == Id(r) && !Stored(table, id) {
      assert saved[|table|] == r;
    }
    if Stored(saved, id) {
      var i :| 0 <= i < |saved| && Id(saved[i]) == id;
      assert i < |table| ==> Id(table[i]) == id;
    }
  }

  lemma SaveFillQuantity(table: seq<FillRecord>, r: FillRecord, day: int, key: CumulativeKey)
    ensures StoredQuantity(SaveFill(table, r), day, key)
         == StoredQuantity(table, day, key)
            + if r.tradeDate == day && r.Key() == key && !Stored(table, Id(r)) then r.quantity else 0
  {
    if Stored(table, Id(r)) {
      RefreshKeepsQuantity(table, SaveFill(table, r), r, day, key);
    } else {
      StoredQuantityAppend(table, r, day, key);
    }
  }

  lemma {:induction false} SaveFillsAddsIds(
    table: seq<FillRecord>, records: seq<FillRecord>, id: FillId)
    ensures Stored(SaveFills(table, records), id) <==> Stored(table, id) || Stored(records, id)
  {
    if records != [] {
      var n := |records| - 1;
      SaveFillsAddsIds(table, records[..n], id);
      SaveFillAddsId(SaveFills(table, records[..n]), records[n], id);
      assert Stored(records, id) <==> Stored(records[..n], id) || Id(records[n]) == id by {
        assert forall i :: 0 <= i < n ==> records[..n][i] == records[i];
      }
    }
  }

  /** The quantity of `key` that a batch loses to identical rows. */
  function MergedAway(
    table: seq<FillRecord>, records: seq<FillRecord>, day: int, key: CumulativeKey): int
  {
    if records == [] then 0
    else
      var n := |records| - 1;
      var r := records[n];
      MergedAway(table, records[..n], day, key)
        + if r.tradeDate == day && r.Key() == key && Stored(SaveFills(table, records[..n]), Id(r))
          then r.quantity else 0
  }

  /** Saving adds what was emitted less what is merged away. */
  lemma {:induction false} SaveFillsQuantity(
    table: seq<FillRecord>, records: seq<FillRecord>, day: int, key: CumulativeKey)
    requires forall r :: r in records ==> r.tradeDate == day
    ensures StoredQuantity(SaveFills(table, records), day, key)
         == StoredQuantity(table, day, key) + Emitted(records, key)
            - MergedAway(table, records, day, key)
  {
    if records != [] {
      var n := |records| - 1;
      SaveFillsQuantity(table, records[..n], day, key);
      SaveFillQuantity(SaveFills(table, records[..n]), records[n], day, key);
    }
  }

  lemma DistinguishableFront(table: seq<FillRecord>, records: seq<FillRecord>, key: CumulativeKey)
    requires records != []
    ensures var front, r := records[..|records| - 1], records[|records| - 1];
            Distinguishable(table, records, key)
            <==> Distinguishable(table, front, key)
                 && (r.Key() == key ==> !Stored(table, Id(r)) && !Stored(front, Id(r)))
  {
  }

  lemma {:induction false} MergedAwayIffMet(
    table: seq<FillRecord>, records: seq<FillRecord>, day: int, key: CumulativeKey)
    requires forall r :: r in records ==> r.quantity > 0 && r.tradeDate == day
    ensures MergedAway(table, records, day, key) >= 0
    ensures MergedAway(table, records, day, key) == 0 <==> Distinguishable(table, records, key)
  {
    if records != [] {
      var n := |records| - 1;
      var front, r := records[..n], records[n];
      MergedAwayIffMet(table, front, day, key);
      SaveFillsAddsIds(table, front, Id(r));
      DistinguishableFront(table, records, key);
    }
  }

  lemma {:induction false} NothingStored(table: seq<FillRecord>, day: int, key: CumulativeKey)
    requires forall r :: r in table ==> r.tradeDate != day || r.Key() != key
    ensures StoredQuantity(table, day, key) == 0
  {
    if table != [] {
      assert table[|table| - 1] in table;
      NothingStored(table[..|table| - 1], day, key);
    }
  }

  // ---- main results ----------------------------------------------------------

  /**
   * After a poll the table holds at most the high water of each order, and holds exactly it if and
   * only if no record just emitted for the order is identical to a stored row or to another one.
   */
  lemma PollReachesHighWaterIffDistinguishable(
    table: seq<FillRecord>, day: int, isMock: bool, poll: Poll, key: CumulativeKey)
    requires key.orderNo != "" && key.isMock == isMock && DatedOn(poll, day)
    ensures var high := HighWater(isMock, poll.fills, key, StoredQuantity(table, day, key));
            && StoredQuantity(RunPoll(table, day, isMock, poll), day, key) <= high
            && (StoredQuantity(RunPoll(table, day, isMock, poll), day, key) == high
                <==> Distinguishable(table, PollRecords(table, day, isMock, poll), key))
  {
    var ctx, existing := Context(isMock, poll.reasons), CumulativeQuantities(table, day, isMock);
    var records := PollRecords(table, day, isMock, poll);
    EmissionTelescopes(ctx, poll.fills, poll.seeds, existing, key);
    EmittedRecordsArePositive(ctx, poll.fills, poll.seeds, existing);
    if key !in existing {
      NothingStored(table, day, key);
    }
    assert Opening(poll.seeds, existing).Saved(key) == StoredQuantity(table, day, key);
    SaveFillsQuantity(table, records, day, key);
    MergedAwayIffMet(table, records, day, key);
  }

  ghost predicate AllDistinguishable(
    table: seq<FillRecord>, day: int, isMock: bool, polls: seq<Poll>, key: CumulativeKey)
    decreases |polls|
  {
    polls == []
    || (Distinguishable(table, PollRecords(table, day, isMock, polls[0]), key)
        && AllDistinguishable(RunPoll(table, day, isMock, polls[0]), day, isMock, polls[1..], key))
  }

  function AllRows(polls: seq<Poll>): seq<BrokerRow> {
    if polls == [] then [] else polls[0].fills + AllRows(polls[1..])
  }

  lemma {:induction false} ScheduleReachesHighWater(
    table: seq<FillRecord>, day: int, isMock: bool, polls: seq<Poll>, key: CumulativeKey)
    requires key.orderNo != "" && key.isMock == isMock
    requires forall p :: p in polls ==> DatedOn(p, day)
    requires AllDistinguishable(table, day, isMock, polls, key)
    ensures StoredQuantity(RunPolls(table, day, isMock, polls), day, key)
         == HighWater(isMock, AllRows(polls), key, StoredQuantity(table, day, key))
    decreases |polls|
  {
    if polls != [] {
      PollReachesHighWaterIffDistinguishable(table, day, isMock, polls[0], key);
      ScheduleReachesHighWater(RunPoll(table, day, isMock, polls[0]), day, isMock, polls[1..], key);
      HighWaterAppend(
        isMock, polls[0].fills, AllRows(polls[1..]), key, StoredQuantity(table, day, key));
    }
  }

  /** However the same rows are split into polls, the day ends with the same stored quantities. */
  lemma SplittingIntoPollsDoesNotMatter(
    table: seq<FillRecord>, day: int, isMock: bool, a: seq<Poll>, b: seq<Poll>, key: CumulativeKey)
    requires key.orderNo != "" && key.isMock == isMock
    requires forall p :: p in a || p in b ==> DatedOn(p, day)
    requires forall r :: r in AllRows(a) <==> r in AllRows(b)
    requires AllDistinguishable(table, day, isMock, a, key)
    requires AllDistinguishable(table, day, isMock, b, key)
    ensures StoredQuantity(RunPolls(table, day, isMock, a), day, key)
         == StoredQuantity(RunPolls(table, day, isMock, b), day, key)
  {
    ScheduleReachesHighWater(table, day, isMock, a, key);
    ScheduleReachesHighWater(table, day, isMock, b, key);
    HighWaterPermutation(isMock, AllRows(a), AllRows(b), key, StoredQuantity(table, day, key));
  }

  lemma HighWaterMonotone(
    isMock: bool, rows: seq<BrokerRow>, key: CumulativeKey, low: int, high: int)
    requires low <= high
    ensures HighWater(isMock, rows, key, low) <= HighWater(isMock, rows, key, high)
  {
  }

  /** The table never holds more of an order than was reported of it. */
  lemma {:induction false} StoredAtMostHighWater(
    table: seq<FillRecord>, day: int, isMock: bool, polls: seq<Poll>, key: CumulativeKey)
    requires key.orderNo != "" && key.isMock == isMock
    requires forall p :: p in polls ==> DatedOn(p, day)
    ensures StoredQuantity(RunPolls(table, day, isMock, polls), day, key)
         <= HighWater(isMock, AllRows(polls), key, StoredQuantity(table, day, key))
    decreases |polls|
  {
    if polls != [] {
      PollReachesHighWaterIffDistinguishable(table, day, isMock, polls[0], key);
      var next := RunPoll(table, day, isMock, polls[0]);
      StoredAtMostHighWater(next, day, isMock, polls[1..], key);
      var base := StoredQuantity(table, day, key);
      HighWaterAppend(isMock, polls[0].fills, AllRows(polls[1..]), key, base);
      HighWaterMonotone(isMock, AllRows(polls[1..]), key, StoredQuantity(next, day, key),
        HighWater(isMock, polls[0].fills, key, base));
    }
  }

  // ---- cumulative polls --------------------------------------------------------

  lemma {:induction false} RunPollsAppend(
    table: seq<FillRecord>, day: int, isMock: bool, polls: seq<Poll>, last: Poll)
    ensures RunPolls(table, day, isMock, polls + [last])
         == RunPoll(RunPolls(table, day, isMock, polls), day, isMock, last)
    decreases |polls|
  {
    if polls == [] {
      assert polls + [last] == [last] && [last][1..] == [];
    } else {
      assert (polls + [last])[1..] == polls[1..] + [last];
      RunPollsAppend(RunPoll(table, day, isMock, polls[0]), day, isMock, polls[1..], last);
    }
  }

  lemma {:induction false} AllRowsAppend(polls: seq<Poll>, last: Poll)
    ensures AllRows(polls + [last]) == AllRows(polls) + last.fills
  {
    if polls == [] {
      assert polls + [last] == [last] && [last][1..] == [];
    } else {
      assert (polls + [last])[1..] == polls[1..] + [last];
      AllRowsAppend(polls[1..], last);
    }
  }

  lemma {:induction false} SaveFillsGrow(
    table: seq<FillRecord>, records: seq<FillRecord>, day: int, key: CumulativeKey)
    requires forall r :: r in records ==> r.quantity > 0
    ensures StoredQuantity(SaveFills(table, records), day, key) >= StoredQuantity(table, day, key)
  {
    if records != [] {
      var n := |records| - 1;
      SaveFillsGrow(table, records[..n], day, key);
      SaveFillQuantity(SaveFills(table, records[..n]), records[n], day, key);
    }
  }

  lemma {:induction false} RunPollsGrow(
    table: seq<FillRecord>, day: int, isMock: bool, polls: seq<Poll>, key: CumulativeKey)
    ensures StoredQuantity(RunPolls(table, day, isMock, polls), day, key)
         >= StoredQuantity(table, day, key)
    decreases |polls|
  {
    if polls != [] {
      EmittedRecordsArePositive(
        Context(isMock, polls[0].reasons), polls[0].fills, polls[0].seeds,
        CumulativeQuantities(table, day, isMock));
      SaveFillsGrow(table, PollRecords(table, day, isMock, polls[0]), day, key);
      RunPollsGrow(RunPoll(table, day, isMock, polls[0]), day, isMock, polls[1..], key);
    }
  }

  /** For each row of the order some row of the last poll reports at least as much. */
  ghost predicate LastReportsMost(
    isMock: bool, polls: seq<Poll>, last: Poll, key: CumulativeKey)
  {
    forall r :: r in AllRows(polls) && Reports(isMock, r, key) ==>
                  exists s :: s in last.fills && Reports(isMock, s, key) && r.quantity <= s.quantity
  }

  lemma LastReachesHighWater(
    isMock: bool, polls: seq<Poll>, last: Poll, key: CumulativeKey, base: int, stored: int)
    requires LastReportsMost(isMock, polls, last, key)
    requires base <= stored <= HighWater(isMock, AllRows(polls), key, base)
    ensures HighWater(isMock, last.fills, key, stored)
         == HighWater(isMock, AllRows(polls) + last.fills, key, base)
  {
    var before := HighWater(isMock, AllRows(polls), key, base);
    HighWaterAppend(isMock, AllRows(polls), last.fills, key, base);
    HighWaterIsHighest(isMock, AllRows(polls), key, base);
    HighWaterIsHighest(isMock, last.fills, key, stored);
    HighWaterIsHighest(isMock, last.fills, key, before);
  }

  /**
   * With cumulative polls, the last reporting the most, the day ends with the high water of all rows
   * if and only if the deltas of the last poll are distinguishable, whatever was lost before.
   */
  lemma CumulativeScheduleIff(
    table: seq<FillRecord>, day: int, isMock: bool, polls: seq<Poll>, last: Poll,
    key: CumulativeKey)
    requires key.orderNo != "" && key.isMock == isMock
    requires DatedOn(last, day) && forall p :: p in polls ==> DatedOn(p, day)
    requires LastReportsMost(isMock, polls, last, key)
    ensures var before := RunPolls(table, day, isMock, polls);
            StoredQuantity(RunPolls(table, day, isMock, polls + [last]), day, key)
            == HighWater(isMock, AllRows(polls + [last]), key, StoredQuantity(table, day, key))
            <==> Distinguishable(before, PollRecords(before, day, isMock, last), key)
  {
    var before, base := RunPolls(table, day, isMock, polls), StoredQuantity(table, day, key);
    RunPollsAppend(table, day, isMock, polls, last);
    AllRowsAppend(polls, last);
    RunPollsGrow(table, day, isMock, polls, key);
    StoredAtMostHighWater(table, day, isMock, polls, key);
    LastReachesHighWater(isMock, polls, last, key, base, StoredQuantity(before, day, key));
    PollReachesHighWaterIffDistinguishable(before, day, isMock, last, key);
  }

  // ---- the merge loses equal deltas ------------------------------------------

  function DeltaId(row: BrokerRow, day: int, isMock: bool, delta: int): FillId {
    FillId(day, row.orderNo, row.timeText, row.ticker, row.side, delta, row.price, isMock)
  }

  ghost predicate OneOrderRow(poll: Poll, day: int, row: BrokerRow) {
    poll.fills == [row] && ValidRow(row) && row.tradeDate == Some(day) && row.orderNo != ""
  }

  lemma OneRowRecord(table: seq<FillRecord>, day: int, isMock: bool, poll: Poll, row: BrokerRow)
    requires OneOrderRow(poll, day, row)
    requires row.quantity > StoredQuantity(table, day, RowKey(isMock, row))
    ensures var delta := row.quantity - StoredQuantity(table, day, RowKey(isMock, row));
            var records := PollRecords(table, day, isMock, poll);
            |records| == 1 && Id(records[0]) == DeltaId(row, day, isMock, delta)
  {
    var key, existing := RowKey(isMock, row), CumulativeQuantities(table, day, isMock);
    var w := Opening(poll.seeds, existing);
    assert Sort(RowLeq, poll.fills[1..]) == [];
    assert Sort(RowLeq, poll.fills) == [row];
    AbsorbOne(Context(isMock, poll.reasons), w, row);
    if key !in existing {
      NothingStored(table, day, key);
    }
    assert w.Saved(key) == StoredQuantity(table, day, key);
  }

  /** A poll of one order row stores its delta, unless an identical delta is stored already. */
  lemma OneRowPoll(table: seq<FillRecord>, day: int, isMock: bool, poll: Poll, row: BrokerRow)
    requires OneOrderRow(poll, day, row)
    requires row.quantity > StoredQuantity(table, day, RowKey(isMock, row))
    ensures var key := RowKey(isMock, row);
            var stored := StoredQuantity(table, day, key);
            var id := DeltaId(row, day, isMock, row.quantity - stored);
            var next := RunPoll(table, day, isMock, poll);
            && Emitted(PollRecords(table, day, isMock, poll), key) == row.quantity - stored
            && Stored(next, id)
            && StoredQuantity(next, day, key) == if Stored(table, id) then stored else row.quantity
  {
    OneRowRecord(table, day, isMock, poll, row);
    OneRecordSaved(table, PollRecords(table, day, isMock, poll), day, RowKey(isMock, row));
  }

  lemma OneRecordSaved(
    table: seq<FillRecord>, records: seq<FillRecord>, day: int, key: CumulativeKey)
    requires |records| == 1 && records[0].tradeDate == day && records[0].Key() == key
    ensures var r, next := records[0], SaveFills(table, records);
            && Emitted(records, key) == r.quantity && Stored(next, Id(r))
            && StoredQuantity(next, day, key)
               == StoredQuantity(table, day, key) + if Stored(table, Id(r)) then 0 else r.quantity
  {
    var r := records[0];
    assert records[..0] == [];
    assert SaveFills(table, records) == SaveFill(table, r);
    SaveFillQuantity(table, r, day, key);
    SaveFillAddsId(table, r, Id(r));
  }

  /**
   * Once q shares of an order are stored and its snapshot rises to 2q at the same time and price,
   * the second delta is identical to the first: however often the snapshot is polled, the table
   * stays at q and the same q shares are emitted again.
   */
  lemma {:induction false} EqualDeltasAreLost(
    table: seq<FillRecord>, day: int, isMock: bool, polls: seq<Poll>, row: BrokerRow, q: int)
    requires forall p :: p in polls ==> OneOrderRow(p, day, row)
    requires q > 0 && row.quantity == 2 * q
    requires StoredQuantity(table, day, RowKey(isMock, row)) == q
    requires Stored(table, DeltaId(row, day, isMock, q))
    ensures StoredQuantity(RunPolls(table, day, isMock, polls), day, RowKey(isMock, row)) == q
    ensures forall p :: OneOrderRow(p, day, row)
              ==> Emitted(PollRecords(table, day, isMock, p), RowKey(isMock, row)) == q
    decreases |polls|
  {
    forall p | OneOrderRow(p, day, row)
      ensures Emitted(PollRecords(table, day, isMock, p), RowKey(isMock, row)) == q
    {
      OneRowPoll(table, day, isMock, p, row);
    }
    if polls != [] {
      OneRowPoll(table, day, isMock, polls[0], row);
      EqualDeltasAreLost(RunPoll(table, day, isMock, polls[0]), day, isMock, polls[1..], row, q);
    }
  }
}
