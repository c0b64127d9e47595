/** What the writer stores for an order is what the reader makes of it. */
module WriterReader {
  import opened Common
  import P = FillPolls
  import Q = FillQuantities
  import opened FillReader
  import W = FillWriter
  import opened Grouping
  import opened Sorting

  // ---- the reading of one order ----------------------------------------------

  /** Nothing but the quantities is left to decide: lineage, side and evidence are in order. */
  ghost predicate Decidable(rows: seq<Fill>, evidence: int, crossIds: set<string>) {
    && rows != [] && Sorted(RowLeq, rows)
    && !LineageConflict(rows, crossIds) && !MissingLineage(rows)
    && !Latest(rows).side.Unknown? && Latest(rows).orderNo != ""
    && forall r :: r in rows ==> !InvalidQuantity(r)
  }

  function Read(rows: seq<Fill>, evidence: int, crossIds: set<string>): Normalized
    requires rows != []
  {
    NormalizeGroup(KeyOf(Latest(rows)), rows, map[OrderOf(Latest(rows)) := {evidence}], crossIds)
  }

  ghost predicate DistinctSignatures(rows: seq<Fill>) {
    NoDuplicates(Map(SignatureOf, rows))
  }

  lemma {:induction false} PositiveSum(rows: seq<Fill>)
    requires forall r :: r in rows ==> !InvalidQuantity(r)
    ensures SumQuantity(rows) >= |rows|
    ensures rows != [] ==> SumQuantity(rows) - Quantity(Latest(rows)) >= |rows| - 1
  {
    if rows != [] {
      assert !InvalidQuantity(rows[0]) && rows[0] in rows;
      PositiveSum(rows[1..]);
      assert SumQuantity(rows) == Quantity(rows[0]) + SumQuantity(rows[1..]);
      assert Latest(rows) == if |rows| == 1 then rows[0] else Latest(rows[1..]);
    }
  }

  lemma SignatureMembers(rows: seq<Fill>, s: Signature)
    ensures s in Map(SignatureOf, rows) <==> exists r :: r in rows && SignatureOf(r) == s
  {
  }

  lemma OneQuantity(row: Fill)
    ensures SumQuantity([row]) == Quantity(row)
  {
    assert [row][1..] == [];
    assert SumQuantity([row]) == Quantity([row][0]) + SumQuantity([row][1..]);
  }

  /** Replacing an equal signature keeps the sum, because the quantity is part of it. */
  lemma {:induction false} PutSum(kept: seq<Fill>, row: Fill)
    ensures SumQuantity(Put(kept, row))
         == SumQuantity(kept) + if SignatureOf(row) in Map(SignatureOf, kept) then 0 else Quantity(row)
  {
    if kept == [] {
      OneQuantity(row);
    } else {
      var next := Put(kept, row);
      assert SumQuantity(kept) == Quantity(kept[0]) + SumQuantity(kept[1..]);
      assert SumQuantity(next) == Quantity(next[0]) + SumQuantity(next[1..]);
      assert Map(SignatureOf, kept) == [SignatureOf(kept[0])] + Map(SignatureOf, kept[1..]);
      if SignatureOf(kept[0]) == SignatureOf(row) {
        assert next[1..] == kept[1..];
      } else {
        PutSum(kept[1..], row);
        assert next[1..] == Put(kept[1..], row);
      }
    }
  }

  lemma {:induction false} SignatureRowsMembers(rows: seq<Fill>)
    ensures forall r :: r in SignatureRows(rows) ==> r in rows
    ensures forall s :: s in Map(SignatureOf, SignatureRows(rows)) <==> s in Map(SignatureOf, rows)
  {
    if rows != [] {
      var front, last := rows[..|rows| - 1], rows[|rows| - 1];
      assert rows == front + [last];
      assert Map(SignatureOf, rows) == Map(SignatureOf, front) + [SignatureOf(last)];
      SignatureRowsMembers(front);
      assert SignatureRows(rows) == Put(SignatureRows(front), last);
      PutFacts(SignatureRows(front), last);
    }
  }

  lemma {:induction false} SignatureRowsSum(rows: seq<Fill>)
    requires forall r :: r in rows ==> !InvalidQuantity(r)
    ensures SumQuantity(SignatureRows(rows)) <= SumQuantity(rows)
    ensures SumQuantity(SignatureRows(rows)) == SumQuantity(rows) <==> DistinctSignatures(rows)
  {
    if rows != [] {
      var front, last := rows[..|rows| - 1], rows[|rows| - 1];
      assert rows == front + [last];
      assert last in rows;
      SignatureRowsSum(front);
      SignatureRowsMembers(front);
      PutSum(SignatureRows(front), last);
      SumIntAppend(Quantity, front, [last]);
      OneQuantity(last);
      DistinctFront(rows);
    }
  }

  lemma DistinctFront(rows: seq<Fill>)
    requires rows != []
    ensures var front, last := rows[..|rows| - 1], rows[|rows| - 1];
            DistinctSignatures(rows)
            <==> DistinctSignatures(front) && SignatureOf(last) !in Map(SignatureOf, front)
  {
  }

  lemma {:induction false} DistinctSignaturesKept(rows: seq<Fill>)
    requires DistinctSignatures(rows)
    ensures SignatureRows(rows) == rows
  {
    if rows != [] {
      var front, last := rows[..|rows| - 1], rows[|rows| - 1];
      DistinctFront(rows);
      assert rows == front + [last];
      DistinctSignaturesKept(front);
      assert Put(front, last) == rows by {
        SignatureMembers(front, SignatureOf(last));
        PutFacts(front, last);
      }
    }
  }

  lemma UniqueRowsFacts(rows: seq<Fill>)
    requires rows != [] && Sorted(RowLeq, rows) && forall r :: r in rows ==> !InvalidQuantity(r)
    ensures var unique := UniqueRows(rows);
            && unique != [] && (forall r :: r in unique ==> !InvalidQuantity(r))
            && (DistinctSignatures(rows) ==> unique == rows)
            && (!DistinctSignatures(rows) ==> SumQuantity(unique) < SumQuantity(rows))
  {
    RowOrderTotal();
    PutKeepsRows(rows);
    SignatureRowsMembers(rows);
    SignatureRowsSum(rows);
    SortSorts(RowLeq, SignatureRows(rows));
    SumIntPermutation(Quantity, UniqueRows(rows), SignatureRows(rows));
    if DistinctSignatures(rows) {
      DistinctSignaturesKept(rows);
      SortedStays(RowLeq, rows);
    }
  }

  /**
   * With several distinct rows and evidence e, the rows are summed if and only if e is their sum,
   * and the latest is taken if and only if they rise to e; never both, and otherwise neither. A
   * quantity that is not excluded is the evidence itself.
   */
  lemma MultiRowReading(unique: seq<Fill>, e: int)
    requires |unique| > 1 && forall r :: r in unique ==> !InvalidQuantity(r)
    ensures var d := MultiRowDecision(unique, Some(e));
            && (d.reading.DeltaRowsSummed? <==> e == SumQuantity(unique))
            && (d.reading.LegacyCumulativeLatest?
                <==> Rising(unique) && e == Quantity(Latest(unique)))
            && !(e == SumQuantity(unique) && e == Quantity(Latest(unique)))
            && (d.reading.AmbiguousExcluded?
                <==> !d.reading.DeltaRowsSummed? && !d.reading.LegacyCumulativeLatest?)
            && (!d.reading.AmbiguousExcluded? ==>
                  d.confidence.High? && SelectedMetrics(d).quantity == Some(e))
  {
    PositiveSum(unique);
    OneQuantity(Latest(unique));
  }

  lemma DecideOrder(rows: seq<Fill>, unique: seq<Fill>, e: int, crossIds: set<string>)
    requires Decidable(rows, e, crossIds)
    requires unique != [] && forall r :: r in unique ==> !InvalidQuantity(r)
    ensures var d := Decide(rows, unique, {e}, crossIds);
            if |unique| > 1 then d == MultiRowDecision(unique, Some(e))
            else !d.reading.AmbiguousExcluded? && d.confidence.High? && d.selected == unique
  {
  }

  /** How a decidable order is read: one row is taken as it is, several are weighed as above. */
  lemma ReadDecidable(rows: seq<Fill>, e: int, crossIds: set<string>)
    requires Decidable(rows, e, crossIds)
    ensures var n, unique := Read(rows, e, crossIds), UniqueRows(rows);
            && unique != []
            && (|unique| == 1 ==> n.metrics.quantity == Some(SumQuantity(unique)))
            && (|unique| > 1 ==> n.metrics == SelectedMetrics(MultiRowDecision(unique, Some(e))))
  {
    UniqueRowsFacts(rows);
    DecideOrder(rows, UniqueRows(rows), e, crossIds);
    ReadIsDecided(rows, e, crossIds);
  }

  lemma ReadIsDecided(rows: seq<Fill>, e: int, crossIds: set<string>)
    requires Decidable(rows, e, crossIds) && UniqueRows(rows) != []
    ensures Read(rows, e, crossIds).metrics
         == SelectedMetrics(Decide(rows, UniqueRows(rows), {e}, crossIds))
  {
  }

  /**
   * Delta rows that add up to the evidence are read as exactly that quantity if and only if their
   * financial signatures differ pairwise; equal deltas collapse and the quantity is lost.
   */
  lemma DeltaRowsReadBackIffDistinct(rows: seq<Fill>, q: int, crossIds: set<string>)
    requires Decidable(rows, q, crossIds) && SumQuantity(rows) == q
    ensures Read(rows, q, crossIds).metrics.quantity == Some(q) <==> DistinctSignatures(rows)
  {
    ReadDecidable(rows, q, crossIds);
    UniqueRowsFacts(rows);
    var unique := UniqueRows(rows);
    PositiveSum(unique);
    if |unique| > 1 {
      MultiRowReading(unique, q);
    }
  }

  /** A row of a buy order, of quantity one. */
  function OneShare(id: string, number: int): Fill {
    Fill(
      id, id, Some(number), "2026-01-02", Some(true), "A", "", "BUY", Buy, "7", "22:30:00", Some(1),
      Some(10.0), Some(10.0), None, None, "")
  }

  lemma TwoShares(a: Fill, b: Fill)
    requires a == OneShare("1", 1) && b == OneShare("2", 2)
    ensures SignatureRows([a, b]) == [b] && UniqueRows([a, b]) == [b]
    ensures SumQuantity([a, b]) == 2 && SumQuantity([b]) == 1
    ensures !DistinctSignatures([a, b])
  {
    assert [a, b][..1] == [a] && [a][..0] == [];
    assert SignatureRows([a]) == Put(SignatureRows([]), a) == [a];
    assert SignatureRows([a, b]) == Put([a], b) == [b] + [a][1..];
    assert Sort(RowLeq, [b][1..]) == [];
    OneQuantity(b);
    assert [a, b][1..] == [b] && SumQuantity([a, b]) == Quantity(a) + SumQuantity([b]);
    assert Map(SignatureOf, [a, b])[0] == Map(SignatureOf, [a, b])[1];
  }

  lemma TwoIds(a: Fill, b: Fill)
    requires a == OneShare("1", 1) && b == OneShare("2", 2)
    ensures |SourceIds([a, b])| == 2
  {
    var ids := Map(SourceIdOf, [a, b]);
    var named := (id: string) => id != "";
    assert ids == [a.sourceId, b.sourceId];
    FilterAll(named, ids);
    assert ids[0] != ids[1];
    DistinctFacts(ids);
  }

  /** Two rows that differ in their ids alone are read as one: half of the two shares is lost. */
  lemma EqualRowsAreCollapsed() returns (rows: seq<Fill>)
    ensures Decidable(rows, 2, {}) && SumQuantity(rows) == 2 && !DistinctSignatures(rows)
    ensures Read(rows, 2, {}).metrics.quantity == Some(1)
  {
    var a, b := OneShare("1", 1), OneShare("2", 2);
    rows := [a, b];
    TwoShares(a, b);
    TwoIds(a, b);
    ReadDecidable(rows, 2, {});
  }

  /** Rows that rise to the evidence are read as cumulative snapshots of exactly that quantity. */
  lemma CumulativeRowsReadBack(rows: seq<Fill>, q: int, crossIds: set<string>)
    requires Decidable(rows, q, crossIds) && Rising(rows) && Quantity(Latest(rows)) == q
    ensures Read(rows, q, crossIds).metrics.quantity == Some(q)
  {
    RisingIsDistinct(rows);
    ReadDecidable(rows, q, crossIds);
    UniqueRowsFacts(rows);
    if |rows| > 1 {
      MultiRowReading(rows, q);
    } else {
      assert rows == [Latest(rows)];
      OneQuantity(Latest(rows));
    }
  }

  lemma {:induction false} RisingApart(rows: seq<Fill>, i: nat, j: nat)
    requires Rising(rows) && i < j < |rows|
    ensures Quantity(rows[i]) < Quantity(rows[j])
    decreases j
  {
    assert Quantity(rows[j - 1]) < Quantity(rows[j]);
    if i < j - 1 {
      RisingApart(rows, i, j - 1);
    }
  }

  lemma RisingIsDistinct(rows: seq<Fill>)
    requires Rising(rows)
    ensures DistinctSignatures(rows)
  {
    var all := Map(SignatureOf, rows);
    forall i, j | 0 <= i < j < |all| ensures all[i] != all[j] {
      RisingApart(rows, i, j);
    }
  }

  // ---- from the writer's table to the reader ----------------------------------

  function ReadSide(side: W.Side): Side {
    match side
    case Buy => Buy
    case Sell => Sell
    case Other(_) => Unknown
  }

  /** The stored columns of a record come back as a typed row; id and creation time are new. */
  ghost predicate ReadsBack(row: Fill, r: W.FillRecord, date: string) {
    && row.tradeDate == date && row.isMock == Some(r.isMock) && row.ticker == r.ticker
    && row.side == ReadSide(r.side) && row.orderNo == r.orderNo && row.fillTime == r.fillTime
    && row.quantity == Some(r.quantity) && row.price == Some(r.price)
    && row.amount == Some(r.amount) && row.profit == r.profit && row.profitRate == r.profitRate
  }

  function OnOrder(day: int, key: W.CumulativeKey): W.FillRecord -> bool {
    (r: W.FillRecord) => r.tradeDate == day && r.Key() == key
  }

  function RecordQuantity(r: W.FillRecord): int { r.quantity }

  /** The rows of one order and day, each with its own source id, as a review loads them. */
  ghost predicate LoadedFrom(
    rows: seq<Fill>, table: seq<W.FillRecord>, day: int, date: string, key: W.CumulativeKey)
  {
    var records := Filter(OnOrder(day, key), table);
    && |rows| == |records|
    && (forall i :: 0 <= i < |rows| ==> ReadsBack(rows[i], records[i], date))
    && NoDuplicates(Map(SourceIdOf, rows))
    && forall r :: r in rows ==> r.sourceId != ""
  }

  ghost predicate DistinctIds(table: seq<W.FillRecord>) {
    forall i, j :: 0 <= i < j < |table| ==> P.Id(table[i]) != P.Id(table[j])
  }

  lemma SaveFillKeepsIdsDistinct(table: seq<W.FillRecord>, r: W.FillRecord)
    requires DistinctIds(table)
    ensures DistinctIds(P.SaveFill(table, r))
  {
  }

  lemma {:induction false} SaveFillsKeepsIdsDistinct(table: seq<W.FillRecord>, records: seq<W.FillRecord>)
    requires DistinctIds(table)
    ensures DistinctIds(P.SaveFills(table, records))
  {
    if records != [] {
      SaveFillsKeepsIdsDistinct(table, records[..|records| - 1]);
      SaveFillKeepsIdsDistinct(P.SaveFills(table, records[..|records| - 1]), records[|records| - 1]);
    }
  }

  /** However fills are polled, the table never holds two identical rows. */
  lemma {:induction false} PolledIdsDistinct(
    table: seq<W.FillRecord>, day: int, isMock: bool, polls: seq<P.Poll>)
    requires DistinctIds(table)
    ensures DistinctIds(P.RunPolls(table, day, isMock, polls))
    decreases |polls|
  {
    if polls != [] {
      SaveFillsKeepsIdsDistinct(table, P.PollRecords(table, day, isMock, polls[0]));
      PolledIdsDistinct(P.RunPoll(table, day, isMock, polls[0]), day, isMock, polls[1..]);
    }
  }

  lemma {:induction false} FilterKeepsIdsDistinct(table: seq<W.FillRecord>, p: W.FillRecord -> bool)
    requires DistinctIds(table)
    ensures DistinctIds(Filter(p, table))
  {
    if table != [] {
      FilterKeepsIdsDistinct(table[1..], p);
      var rest := Filter(p, table[1..]);
      forall j | 0 <= j < |rest| ensures P.Id(rest[j]) != P.Id(table[0]) {
        assert rest[j] in rest;
        var k :| 0 <= k < |table[1..]| && table[1..][k] == rest[j];
        assert table[k + 1] == rest[j];
      }
    }
  }

  lemma {:induction false} StoredIsFilteredSum(
    table: seq<W.FillRecord>, day: int, key: W.CumulativeKey)
    ensures P.StoredQuantity(table, day, key)
         == SumInt(RecordQuantity, Filter(OnOrder(day, key), table))
  {
    if table != [] {
      var front, last := table[..|table| - 1], table[|table| - 1];
      StoredIsFilteredSum(front, day, key);
      assert table == front + [last];
      FilterAppend(OnOrder(day, key), front, [last]);
      SumIntAppend(RecordQuantity, Filter(OnOrder(day, key), front), Filter(OnOrder(day, key), [last]));
      assert [last][1..] == [];
    }
  }

  lemma {:induction false} LoadedSum(rows: seq<Fill>, records: seq<W.FillRecord>, date: string)
    requires |rows| == |records|
    requires forall i :: 0 <= i < |rows| ==> ReadsBack(rows[i], records[i], date)
    ensures SumQuantity(rows) == SumInt(RecordQuantity, records)
  {
    if rows != [] {
      assert forall i :: 0 <= i < |rows| - 1 ==> rows[1..][i] == rows[i + 1] && records[1..][i] == records[i + 1];
      LoadedSum(rows[1..], records[1..], date);
    }
  }

  lemma LineageComplete(rows: seq<Fill>)
    requires NoDuplicates(Map(SourceIdOf, rows)) && forall r :: r in rows ==> r.sourceId != ""
    ensures !MissingLineage(rows)
  {
    var ids := Map(SourceIdOf, rows);
    forall id | id in ids ensures id != "" {
      var i :| 0 <= i < |ids| && ids[i] == id;
      assert rows[i] in rows;
    }
    FilterAll((id: string) => id != "", ids);
    DistinctFacts(ids);
  }

  lemma LoadedSignatures(
    rows: seq<Fill>, table: seq<W.FillRecord>, day: int, date: string, key: W.CumulativeKey)
    requires LoadedFrom(rows, table, day, date, key) && DistinctIds(table)
    ensures DistinctSignatures(rows)
  {
    var records := Filter(OnOrder(day, key), table);
    FilterKeepsIdsDistinct(table, OnOrder(day, key));
    forall i, j | 0 <= i < j < |rows|
      ensures Map(SignatureOf, rows)[i] != Map(SignatureOf, rows)[j]
    {
      assert ReadsBack(rows[i], records[i], date) && ReadsBack(rows[j], records[j], date);
      assert records[i] in records && records[j] in records;
      assert P.Id(records[i]) != P.Id(records[j]);
    }
  }

  lemma LoadedRow(
    rows: seq<Fill>, table: seq<W.FillRecord>, day: int, date: string, key: W.CumulativeKey, r: Fill)
    requires LoadedFrom(rows, table, day, date, key) && r in rows
    requires key.orderNo != "" && !key.side.Other?
    requires forall r :: r in table ==> r.quantity > 0
    ensures !InvalidQuantity(r) && !r.side.Unknown? && r.orderNo != ""
  {
    var records := Filter(OnOrder(day, key), table);
    var i :| 0 <= i < |rows| && rows[i] == r;
    assert ReadsBack(rows[i], records[i], date) && records[i] in records;
  }

  lemma LoadedIsDecidable(
    rows: seq<Fill>, table: seq<W.FillRecord>, day: int, date: string, key: W.CumulativeKey, q: int)
    requires LoadedFrom(rows, table, day, date, key) && rows != []
    requires key.orderNo != "" && !key.side.Other? && DistinctIds(table)
    requires forall r :: r in table ==> r.quantity > 0
    ensures Decidable(Sort(RowLeq, rows), q, {})
    ensures DistinctSignatures(Sort(RowLeq, rows))
    ensures SumQuantity(Sort(RowLeq, rows)) == P.StoredQuantity(table, day, key)
  {
    var sorted := Sort(RowLeq, rows);
    RowOrderTotal();
    SortSorts(RowLeq, rows);
    forall r | r in sorted ensures !InvalidQuantity(r) && !r.side.Unknown? && r.orderNo != "" {
      LoadedRow(rows, table, day, date, key, r);
    }
    assert Latest(sorted) in sorted;
    SumIntPermutation(Quantity, sorted, rows);
    LoadedSum(rows, Filter(OnOrder(day, key), table), date);
    StoredIsFilteredSum(table, day, key);
    MapPermutation(SourceIdOf, rows, sorted);
    PermutedNoDuplicates(Map(SourceIdOf, rows), Map(SourceIdOf, sorted));
    LineageComplete(sorted);
    LoadedSignatures(rows, table, day, date, key);
    MapPermutation(SignatureOf, rows, sorted);
    PermutedNoDuplicates(Map(SignatureOf, rows), Map(SignatureOf, sorted));
  }

  /**
   * End to end: an order polled from an empty table and reported filled with q shares is read back
   * as q if and only if the table holds q shares of it.
   */
  lemma PolledOrderReadsBackIffStored(
    rows: seq<Fill>, day: int, date: string, isMock: bool, polls: seq<P.Poll>,
    key: W.CumulativeKey, q: int)
    requires key.orderNo != "" && key.isMock == isMock && !key.side.Other?
    requires forall p :: p in polls ==> P.DatedOn(p, day)
    requires LoadedFrom(rows, P.RunPolls([], day, isMock, polls), day, date, key) && rows != []
    requires q == Q.HighWater(isMock, P.AllRows(polls), key, 0)
    ensures Read(Sort(RowLeq, rows), q, {}).metrics.quantity == Some(q)
       <==> P.StoredQuantity(P.RunPolls([], day, isMock, polls), day, key) == q
    ensures P.AllDistinguishable([], day, isMock, polls, key)
       ==> Read(Sort(RowLeq, rows), q, {}).metrics.quantity == Some(q)
  {
    var table, sorted := P.RunPolls([], day, isMock, polls), Sort(RowLeq, rows);
    PolledIdsDistinct([], day, isMock, polls);
    PolledPositive([], day, isMock, polls);
    LoadedIsDecidable(rows, table, day, date, key, q);
    var stored := P.StoredQuantity(table, day, key);
    P.StoredAtMostHighWater([], day, isMock, polls, key);
    UniqueRowsFacts(sorted);
    ReadDecidable(sorted, q, {});
    PositiveSum(sorted);
    if |sorted| > 1 {
      MultiRowReading(sorted, q);
    }
    if P.AllDistinguishable([], day, isMock, polls, key) {
      P.ScheduleReachesHighWater([], day, isMock, polls, key);
    }
  }

  lemma {:induction false} SavedPositive(table: seq<W.FillRecord>, records: seq<W.FillRecord>)
    requires forall r :: r in table || r in records ==> r.quantity > 0
    ensures forall r :: r in P.SaveFills(table, records) ==> r.quantity > 0
  {
    if records != [] {
      var front, last := records[..|records| - 1], records[|records| - 1];
      SavedPositive(table, front);
      var saved := P.SaveFills(table, front);
      var next := P.SaveFill(saved, last);
      assert last in records;
      forall i | 0 <= i < |next| ensures next[i].quantity > 0 {
        assert i < |saved| ==> next[i].quantity == saved[i].quantity && saved[i] in saved;
      }
    }
  }

  lemma {:induction false} PolledPositive(
    table: seq<W.FillRecord>, day: int, isMock: bool, polls: seq<P.Poll>)
    requires forall r :: r in table ==> r.quantity > 0
    ensures forall r :: r in P.RunPolls(table, day, isMock, polls) ==> r.quantity > 0
    decreases |polls|
  {
    if polls != [] {
      Q.EmittedRecordsArePositive(
        W.Context(isMock, polls[0].reasons), polls[0].fills, polls[0].seeds,
        P.CumulativeQuantities(table, day, isMock));
      SavedPositive(table, P.PollRecords(table, day, isMock, polls[0]));
      PolledPositive(P.RunPoll(table, day, isMock, polls[0]), day, isMock, polls[1..]);
    }
  }
}
