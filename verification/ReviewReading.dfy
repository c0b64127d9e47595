/** How a group of source rows is read, stated on the rows and the order snapshots themselves. */
module ReviewReading {
  import opened Common
  import opened FillReader
  import opened FillReview
  import FillReviewRun
  import opened Grouping
  import opened ReviewMetrics
  import opened Sorting
  import opened WriterReader

  // ---- rows of a group -------------------------------------------------------

  /** Rows belong together by day, mode, side, ticker and order; without an order by all of it. */
  predicate SameGroup(a: Fill, b: Fill) {
    && a.tradeDate == b.tradeDate && a.isMock == b.isMock && a.side == b.side
    && a.ticker == b.ticker && a.orderNo == b.orderNo
    && (a.orderNo == "" ==> a.fillTime == b.fillTime && a.price == b.price && a.quantity == b.quantity)
  }

  predicate EqualPayload(a: Fill, b: Fill) {
    && a.fillTime == b.fillTime && a.quantity == b.quantity && a.price == b.price
    && a.amount == b.amount && a.profit == b.profit && a.profitRate == b.profitRate
  }

  /** By creation time; then numbered ids by number, before the others by text; then the row's text. */
  predicate NotAfter(a: Fill, b: Fill) {
    if a.createdAt != b.createdAt then TextLeq(a.createdAt, b.createdAt)
    else
      match (a.sourceNumber, b.sourceNumber)
      case (Some(m), Some(n)) => m < n || (m == n && TextLeq(a.raw, b.raw))
      case (Some(_), None) => true
      case (None, Some(_)) => false
      case (None, None) =>
        if a.sourceId == b.sourceId then TextLeq(a.raw, b.raw) else TextLeq(a.sourceId, b.sourceId)
  }

  ghost predicate InSourceOrder(rows: seq<Fill>) {
    forall i, j :: 0 <= i < j < |rows| ==> NotAfter(rows[i], rows[j])
  }

  /** `r` is a row after which its payload does not occur again. */
  ghost predicate LastOfPayload(r: Fill, rows: seq<Fill>) {
    exists k :: 0 <= k < |rows| && rows[k] == r
                && forall j :: k < j < |rows| ==> !EqualPayload(rows[j], r)
  }

  /** The last row of every payload, in source order. */
  ghost predicate AreDistinct(unique: seq<Fill>, rows: seq<Fill>) {
    && unique != [] && InSourceOrder(unique)
    && (forall u :: u in unique ==> LastOfPayload(u, rows))
    && (forall r :: r in rows ==> exists u :: u in unique && EqualPayload(u, r))
    && (forall i, j :: 0 <= i < j < |unique| ==> !EqualPayload(unique[i], unique[j]))
  }

  lemma GroupsStated(a: Fill, b: Fill)
    ensures KeyOf(a) == KeyOf(b) <==> SameGroup(a, b)
  {
  }

  lemma OrderStated(a: Fill, b: Fill)
    ensures RowLeq(a, b) <==> NotAfter(a, b)
  {
    TextLeqReflexive(a.sourceId);
    if TextLeq(a.sourceId, b.sourceId) && TextLeq(b.sourceId, a.sourceId) {
      TextLeqAntisymmetric(a.sourceId, b.sourceId);
    }
  }

  lemma PayloadsStated(a: Fill, b: Fill)
    requires SameGroup(a, b)
    ensures SignatureOf(a) == SignatureOf(b) <==> EqualPayload(a, b)
  {
  }

  lemma DistinctHead(head: Fill, rest: seq<Fill>)
    ensures DistinctSignatures([head] + rest)
       <==> DistinctSignatures(rest) && forall r :: r in rest ==> SignatureOf(r) != SignatureOf(head)
  {
    var all, tail := Map(SignatureOf, [head] + rest), Map(SignatureOf, rest);
    assert all == [SignatureOf(head)] + tail;
    if DistinctSignatures([head] + rest) {
      forall i, j | 0 <= i < j < |tail| ensures tail[i] != tail[j] {
        assert all[i + 1] != all[j + 1];
      }
      forall r | r in rest ensures SignatureOf(r) != SignatureOf(head) {
        var k :| 0 <= k < |rest| && rest[k] == r;
        assert all[k + 1] != all[0];
      }
    }
  }

  lemma {:induction false} PutReplaces(kept: seq<Fill>, row: Fill)
    requires DistinctSignatures(kept)
    ensures DistinctSignatures(Put(kept, row))
    ensures forall r :: r in Put(kept, row) ==>
              r == row || (r in kept && SignatureOf(r) != SignatureOf(row))
  {
    if kept == [] {
    } else {
      var head, rest := kept[0], kept[1..];
      assert kept == [head] + rest;
      DistinctHead(head, rest);
      if SignatureOf(head) == SignatureOf(row) {
        DistinctHead(row, rest);
      } else {
        PutReplaces(rest, row);
        DistinctHead(head, Put(rest, row));
      }
    }
  }

  /** The last row of a signature stays, at the place of its first. */
  ghost predicate LastOfSignature(r: Fill, rows: seq<Fill>) {
    exists k :: 0 <= k < |rows| && rows[k] == r
                && forall j :: k < j < |rows| ==> SignatureOf(rows[j]) != SignatureOf(r)
  }

  lemma LastStays(r: Fill, front: seq<Fill>, last: Fill)
    requires LastOfSignature(r, front) && SignatureOf(last) != SignatureOf(r)
    ensures LastOfSignature(r, front + [last])
  {
    var k :| 0 <= k < |front| && front[k] == r
             && forall j :: k < j < |front| ==> SignatureOf(front[j]) != SignatureOf(r);
    assert (front + [last])[k] == r;
  }

  lemma {:induction false} SignatureRowsStated(rows: seq<Fill>)
    ensures DistinctSignatures(SignatureRows(rows))
    ensures forall u :: u in SignatureRows(rows) ==> LastOfSignature(u, rows)
  {
    if rows != [] {
      var front, last := rows[..|rows| - 1], rows[|rows| - 1];
      assert rows == front + [last];
      SignatureRowsStated(front);
      PutReplaces(SignatureRows(front), last);
      forall u | u in SignatureRows(rows) ensures LastOfSignature(u, rows) {
        if u == last {
          assert rows[|rows| - 1] == u;
        } else {
          LastStays(u, front, last);
        }
      }
    }
  }

  ghost predicate OneGroup(rows: seq<Fill>) {
    forall a, b :: a in rows && b in rows ==> SameGroup(a, b)
  }

  lemma LastIsLast(u: Fill, rows: seq<Fill>)
    requires OneGroup(rows) && LastOfSignature(u, rows)
    ensures LastOfPayload(u, rows)
  {
    var k :| 0 <= k < |rows| && rows[k] == u
             && forall j :: k < j < |rows| ==> SignatureOf(rows[j]) != SignatureOf(u);
    forall j | k < j < |rows| ensures !EqualPayload(rows[j], u) {
      assert rows[j] in rows && u in rows;
      PayloadsStated(rows[j], u);
    }
  }

  /** Sorting keeps the rows: every payload of the group has its one row. */
  lemma EveryPayload(rows: seq<Fill>, r: Fill)
    requires OneGroup(rows) && r in rows
    ensures exists u :: u in SignatureRows(rows) && EqualPayload(u, r)
  {
    SignatureRowsMembers(rows);
    SignatureMembers(rows, SignatureOf(r));
    SignatureMembers(SignatureRows(rows), SignatureOf(r));
    var u :| u in SignatureRows(rows) && SignatureOf(u) == SignatureOf(r);
    PayloadsStated(u, r);
  }

  lemma DistinctPayloads(rows: seq<Fill>, unique: seq<Fill>)
    requires OneGroup(rows) && (forall u :: u in unique ==> u in rows) && DistinctSignatures(unique)
    ensures forall i, j :: 0 <= i < j < |unique| ==> !EqualPayload(unique[i], unique[j])
  {
    forall i, j | 0 <= i < j < |unique| ensures !EqualPayload(unique[i], unique[j]) {
      assert unique[i] in rows && unique[j] in rows;
      assert Map(SignatureOf, unique)[i] != Map(SignatureOf, unique)[j];
      PayloadsStated(unique[i], unique[j]);
    }
  }

  lemma UniqueRowsStated(rows: seq<Fill>)
    requires rows != [] && OneGroup(rows)
    ensures AreDistinct(UniqueRows(rows), rows)
  {
    var kept, unique := SignatureRows(rows), UniqueRows(rows);
    UniqueRowsStay(rows);
    SignatureRowsStated(rows);
    RowOrderTotal();
    SortSorts(RowLeq, kept);
    forall i, j | 0 <= i < j < |unique| ensures NotAfter(unique[i], unique[j]) {
      OrderStated(unique[i], unique[j]);
    }
    forall u | u in unique ensures LastOfPayload(u, rows) {
      LastIsLast(u, rows);
    }
    forall r | r in rows ensures exists u :: u in unique && EqualPayload(u, r) {
      EveryPayload(rows, r);
    }
    MapPermutation(SignatureOf, kept, unique);
    PermutedNoDuplicates(Map(SignatureOf, kept), Map(SignatureOf, unique));
    DistinctPayloads(rows, unique);
  }

  // ---- lineage and evidence ----------------------------------------------------

  /** A row without a source id, or two rows with the same one. */
  ghost predicate LineageGap(rows: seq<Fill>) {
    || (exists r :: r in rows && r.sourceId == "")
    || (exists i, j :: 0 <= i < j < |rows| && rows[i].sourceId == rows[j].sourceId)
  }

  /** A row of the group shares its source id with a fill outside. */
  ghost predicate SharesId(rows: seq<Fill>, fills: seq<Fill>) {
    exists r, q :: r in rows && q in fills && r.sourceId != "" && q.sourceId == r.sourceId
                   && !SameGroup(q, r)
  }

  lemma {:induction false} FilterShortens<T(!new)>(p: T -> bool, s: seq<T>)
    ensures |Filter(p, s)| == |s| <==> forall x :: x in s ==> p(x)
  {
    if s != [] {
      FilterShortens(p, s[1..]);
      assert forall x :: x in s <==> x == s[0] || x in s[1..];
    }
  }

  lemma LineageStated(rows: seq<Fill>)
    ensures MissingLineage(rows) <==> LineageGap(rows)
  {
    var ids := Map(SourceIdOf, rows);
    var named := (id: string) => id != "";
    FilterShortens(named, ids);
    DistinctFacts(Filter(named, ids));
    if forall r :: r in rows ==> r.sourceId != "" {
      forall id | id in ids ensures id != "" {
        var i :| 0 <= i < |ids| && ids[i] == id;
        assert rows[i] in rows;
      }
      FilterAll(named, ids);
    } else {
      var r :| r in rows && r.sourceId == "";
      var i :| 0 <= i < |rows| && rows[i] == r;
      assert ids[i] in ids;
    }
  }

  lemma SourceIdsStated(rows: seq<Fill>, id: string)
    ensures id in SourceIds(rows) <==> id != "" && exists r :: r in rows && r.sourceId == id
  {
    var ids := Map(SourceIdOf, rows);
    DistinctFacts(Filter((id: string) => id != "", ids));
    if id in ids {
      var i :| 0 <= i < |ids| && ids[i] == id;
      assert rows[i] in rows && rows[i].sourceId == id;
    }
    if r :| r in rows && r.sourceId == id {
      var i :| 0 <= i < |rows| && rows[i] == r;
      assert ids[i] in ids;
    }
  }

  /** Ids that fills of two groups have. */
  ghost predicate Crosses(id: string, fills: seq<Fill>) {
    exists a, b :: a in fills && b in fills && id != "" && a.sourceId == id && b.sourceId == id
                   && !SameGroup(a, b)
  }

  lemma CrossIdsStated(fills: seq<Fill>, id: string)
    ensures id in CrossIds(fills) <==> Crosses(id, fills)
  {
    if id in CrossIds(fills) {
      var a, b :| a in fills && b in fills && a.sourceId == id && b.sourceId == id
                  && KeyOf(b) != KeyOf(a);
      GroupsStated(a, b);
    }
    if Crosses(id, fills) {
      var a, b :| a in fills && b in fills && a.sourceId == id && b.sourceId == id && !SameGroup(a, b);
      GroupsStated(b, a);
      assert KeyOf(b) != KeyOf(a);
    }
  }

  lemma SharingStated(rows: seq<Fill>, fills: seq<Fill>)
    requires OneGroup(rows) && forall r :: r in rows ==> r in fills
    ensures LineageConflict(rows, CrossIds(fills)) <==> SharesId(rows, fills)
  {
    if id :| id in SourceIds(rows) && id in CrossIds(fills) {
      SourceIdsStated(rows, id);
      CrossIdsStated(fills, id);
      var r :| r in rows && r.sourceId == id;
      var a, b :| a in fills && b in fills && a.sourceId == id && b.sourceId == id && !SameGroup(a, b);
      assert !SameGroup(a, r) || !SameGroup(b, r);
    }
    if r, q :| r in rows && q in fills && r.sourceId != "" && q.sourceId == r.sourceId
               && !SameGroup(q, r) {
      SourceIdsStated(rows, r.sourceId);
      CrossIdsStated(fills, r.sourceId);
    }
  }

  /** The filled quantity a snapshot gives: its own, else ordered less remaining, else less unfilled. */
  predicate Reports(o: OrderRow, q: int) {
    q >= 0
    && match (o.filledQty, o.orderQty, o.remainingQty)
       case (Some(filled), _, _) => q == filled
       case (None, Some(ordered), Some(left)) => q == ordered - left
       case _ => o.quantity.Some? && o.unfilled.Some? && q == o.quantity.value - o.unfilled.value
  }

  /** A snapshot of just this order, with a known side, gives `q`. */
  ghost predicate Evidenced(orders: seq<OrderRow>, r: Fill, q: int) {
    exists o :: o in orders && Reports(o, q) && !r.side.Unknown? && r.orderNo != ""
                && o.key == OrderKey(r.tradeDate, r.isMock, r.side, r.ticker, r.orderNo)
  }

  lemma EvidenceStated(rows: seq<Fill>, orders: seq<OrderRow>, q: int)
    requires rows != []
    ensures q in GroupEvidence(rows, Evidence(orders)) <==> Evidenced(orders, Latest(rows), q)
  {
    var key := OrderOf(Latest(rows));
    FillReviewRun.EvidenceKeys(orders, key);
    forall o ensures GivesEvidence(o) && FilledQuantity(o).value == q
                <==> Reports(o, q) && !o.key.side.Unknown? && o.key.orderNo != "" {
    }
    if q in EvidenceFor(orders, key) {
      var o :| o in orders && GivesEvidence(o) && o.key == key && FilledQuantity(o).value == q;
      assert Reports(o, q);
    }
  }

  // ---- readings ----------------------------------------------------------------

  /** Nothing speaks against reading the group: ids, side, quantities and evidence are in order. */
  ghost predicate Sound(n: Normalized, fills: seq<Fill>) {
    && !SharesId(n.rows, fills) && !LineageGap(n.rows) && !n.side.Unknown? && AllPositive(n.rows)
    && |n.evidenceValues| <= 1
  }

  ghost predicate Rises(rows: seq<Fill>) {
    forall i :: 0 <= i < |rows| - 1 ==> Shares(rows[i]) < Shares(rows[i + 1])
  }

  ghost predicate Falls(rows: seq<Fill>) {
    forall i :: 0 <= i < |rows| - 1 ==> Shares(rows[i]) > Shares(rows[i + 1])
  }

  /** Rows with several payloads are read together only when nothing else would fit. */
  ghost predicate AddUp(unique: seq<Fill>, evidence: Option<int>) {
    if evidence.Some? then evidence.value == SumInt(Shares, unique) else Falls(unique)
  }

  /** The reading, confidence and counted rows that the distinct rows of the group call for. */
  ghost predicate ReadAs(d: Decision, rows: seq<Fill>, unique: seq<Fill>, sound: bool,
                         evidence: Option<int>)
    requires rows != [] && unique != []
  {
    var numbered, several := Latest(rows).orderNo != "", |unique| > 1;
    var last := unique[|unique| - 1];
    && (d.reading.SingleRow? <==> sound && numbered && |rows| == 1)
    && (d.reading.ExactDuplicateCollapsed? <==> sound && numbered && |rows| > 1 && !several)
    && (d.reading.NoOrderNoFallback? <==> sound && !numbered && !several)
    && (d.reading.DeltaRowsSummed? <==> sound && numbered && several && AddUp(unique, evidence))
    && (d.reading.LegacyCumulativeLatest?
        <==> sound && numbered && several && Rises(unique) && evidence == Some(Shares(last)))
    && d.selected == (if d.reading.AmbiguousExcluded? then []
                      else if d.reading.LegacyCumulativeLatest? then [last] else unique)
    && d.confidence == (if d.reading.AmbiguousExcluded? then NoConfidence
                        else if d.reading.NoOrderNoFallback? then Low
                        else if d.reading.DeltaRowsSummed? && evidence.None? then Medium else High)
  }

  lemma SeveralRows(unique: seq<Fill>, evidence: Option<int>)
    requires |unique| > 1 && forall r :: r in unique ==> !InvalidQuantity(r)
    ensures var d, last := MultiRowDecision(unique, evidence), unique[|unique| - 1];
            && (d.reading.DeltaRowsSummed? <==> AddUp(unique, evidence))
            && (d.reading.LegacyCumulativeLatest? <==> Rises(unique) && evidence == Some(Shares(last)))
            && (d.reading.DeltaRowsSummed? || d.reading.LegacyCumulativeLatest?
                || d == Decision(AmbiguousExcluded, NoConfidence, d.reason, []))
            && (d.reading.DeltaRowsSummed? ==>
                  d.selected == unique && d.confidence == if evidence.None? then Medium else High)
            && (d.reading.LegacyCumulativeLatest? ==> d.selected == [last] && d.confidence.High?)
  {
    SharesAreQuantities(unique);
    assert Rising(unique) <==> Rises(unique);
    assert Falling(unique) <==> Falls(unique);
    if evidence.Some? {
      MultiRowReading(unique, evidence.value);
    }
  }

  /** What a readable group's reading rests on. */
  ghost predicate RestsOn(d: Decision, rows: seq<Fill>, unique: seq<Fill>, evidence: Option<int>)
    requires rows != []
  {
    var numbered, several := Latest(rows).orderNo != "", |unique| > 1;
    d.reason ==
      if !numbered then if several then FallbackDisagrees else FallbackIdentity
      else if !several then if |rows| > 1 then SamePayload else OneRow
      else if d.reading.DeltaRowsSummed? then if evidence.Some? then EvidenceIsSum else Decreasing
      else if d.reading.LegacyCumulativeLatest? then EvidenceIsLatest
      else if evidence.Some? then EvidenceFitsNeither
      else if Rises(unique) then Increasing
      else NoInterpretation
  }

  /** The first thing that speaks against the group is the reason. */
  ghost predicate FirstFault(reason: Reason, n: Normalized, fills: seq<Fill>) {
    reason ==
      if SharesId(n.rows, fills) then SharedSourceId
      else if LineageGap(n.rows) then LineageMissing
      else if n.side.Unknown? then SideUnknown
      else if !AllPositive(n.rows) then QuantityInvalid
      else EvidenceConflict
  }

  /** The rows of one group in source order, out of all fills. */
  ghost predicate IsGroup(rows: seq<Fill>, fills: seq<Fill>) {
    rows != [] && OneGroup(rows) && InSourceOrder(rows) && forall r :: r in rows ==> r in fills
  }

  lemma QuantitiesStated(rows: seq<Fill>, unique: seq<Fill>)
    requires AreDistinct(unique, rows)
    ensures HasInvalidQuantity(unique) <==> !AllPositive(rows)
  {
    if AllPositive(rows) {
      forall u | u in unique ensures !InvalidQuantity(u) {
        assert LastOfPayload(u, rows);
      }
    } else {
      var r :| r in rows && !(r.quantity.Some? && r.quantity.value > 0);
      var u :| u in unique && EqualPayload(u, r);
      assert InvalidQuantity(u);
    }
  }

  /** The tests of the decision on their own, whatever they stand for. */
  predicate Readable(rows: seq<Fill>, unique: seq<Fill>, values: set<int>, crossIds: set<string>)
    requires rows != []
  {
    && !LineageConflict(rows, crossIds) && !MissingLineage(rows) && !Latest(rows).side.Unknown?
    && !HasInvalidQuantity(unique) && |values| <= 1
  }

  lemma DecisionStated(rows: seq<Fill>, unique: seq<Fill>, values: set<int>, crossIds: set<string>)
    requires rows != [] && unique != [] && |unique| <= |rows|
    ensures ReadAs(Decide(rows, unique, values, crossIds), rows, unique,
                   Readable(rows, unique, values, crossIds), TheOnly(values))
  {
    var d := Decide(rows, unique, values, crossIds);
    if !Readable(rows, unique, values, crossIds) {
      assert d == Excluded(d.reason);
    } else if |unique| > 1 && Latest(rows).orderNo != "" {
      SeveralRows(unique, TheOnly(values));
      assert d == MultiRowDecision(unique, TheOnly(values));
    }
  }

  lemma GroupParts(
    key: GroupKey, rows: seq<Fill>, evidence: map<OrderKey, set<int>>, crossIds: set<string>)
    requires rows != []
    ensures var n := NormalizeGroup(key, rows, evidence, crossIds);
            && UniqueRows(rows) != []
            && n.rows == rows && n.side == Latest(rows).side
            && n.evidenceValues == GroupEvidence(rows, evidence)
            && n.evidence == TheOnly(n.evidenceValues)
            && n.decision == Decide(rows, UniqueRows(rows), n.evidenceValues, crossIds)
            && n == Assemble(key, rows, n.evidenceValues, n.decision)
  {
    PutKeepsRows(rows);
  }

  lemma SoundStated(rows: seq<Fill>, fills: seq<Fill>, n: Normalized)
    requires IsGroup(rows, fills) && n.rows == rows && n.side == Latest(rows).side
    ensures Readable(rows, UniqueRows(rows), n.evidenceValues, CrossIds(fills)) == Sound(n, fills)
    ensures LineageConflict(rows, CrossIds(fills)) <==> SharesId(rows, fills)
    ensures MissingLineage(rows) <==> LineageGap(rows)
    ensures HasInvalidQuantity(UniqueRows(rows)) <==> !AllPositive(rows)
  {
    UniqueRowsStated(rows);
    LineageStated(rows);
    SharingStated(rows, fills);
    QuantitiesStated(rows, UniqueRows(rows));
  }

  /** As many distinct rows as the group has at most. */
  lemma {:induction false} FewerDistinct(rows: seq<Fill>)
    ensures |SignatureRows(rows)| <= |rows|
  {
    if rows != [] {
      var front := rows[..|rows| - 1];
      FewerDistinct(front);
      PutLength(SignatureRows(front), rows[|rows| - 1]);
    }
  }

  lemma {:induction false} PutLength(kept: seq<Fill>, row: Fill)
    ensures |Put(kept, row)| <= |kept| + 1
  {
    if kept != [] {
      PutLength(kept[1..], row);
    }
  }

  lemma GroupReading(
    key: GroupKey, rows: seq<Fill>, orders: seq<OrderRow>, fills: seq<Fill>, n: Normalized)
    requires IsGroup(rows, fills) && n == NormalizeGroup(key, rows, Evidence(orders), CrossIds(fills))
    ensures AreDistinct(UniqueRows(rows), rows)
    ensures ReadAs(n.decision, rows, UniqueRows(rows), Sound(n, fills), n.evidence)
  {
    GroupParts(key, rows, Evidence(orders), CrossIds(fills));
    UniqueRowsStated(rows);
    RowOrderTotal();
    SortSorts(RowLeq, SignatureRows(rows));
    FewerDistinct(rows);
    SoundStated(rows, fills, n);
    DecisionStated(rows, UniqueRows(rows), n.evidenceValues, CrossIds(fills));
  }

  lemma SeveralReasons(unique: seq<Fill>, evidence: Option<int>)
    requires |unique| > 1 && forall r :: r in unique ==> !InvalidQuantity(r)
    ensures var d := MultiRowDecision(unique, evidence);
            d.reason ==
              if d.reading.DeltaRowsSummed? then if evidence.Some? then EvidenceIsSum else Decreasing
              else if d.reading.LegacyCumulativeLatest? then EvidenceIsLatest
              else if evidence.Some? then EvidenceFitsNeither
              else if Rises(unique) then Increasing
              else NoInterpretation
  {
    assert Rising(unique) <==> Rises(unique);
    if evidence.Some? {
      MultiRowReading(unique, evidence.value);
    }
  }

  lemma FaultOf(rows: seq<Fill>, unique: seq<Fill>, values: set<int>, crossIds: set<string>)
    requires rows != [] && unique != []
    ensures var reason := Decide(rows, unique, values, crossIds).reason;
            !Readable(rows, unique, values, crossIds) ==>
              reason ==
                if LineageConflict(rows, crossIds) then SharedSourceId
                else if MissingLineage(rows) then LineageMissing
                else if Latest(rows).side.Unknown? then SideUnknown
                else if HasInvalidQuantity(unique) then QuantityInvalid
                else EvidenceConflict
  {
  }

  lemma ReadableReason(rows: seq<Fill>, unique: seq<Fill>, values: set<int>, crossIds: set<string>)
    requires rows != [] && unique != [] && Readable(rows, unique, values, crossIds)
    ensures RestsOn(Decide(rows, unique, values, crossIds), rows, unique, TheOnly(values))
  {
    if |unique| > 1 && Latest(rows).orderNo != "" {
      SeveralReasons(unique, TheOnly(values));
      assert Decide(rows, unique, values, crossIds) == MultiRowDecision(unique, TheOnly(values));
    }
  }

  lemma ReasonStated(
    key: GroupKey, rows: seq<Fill>, orders: seq<OrderRow>, fills: seq<Fill>, n: Normalized)
    requires IsGroup(rows, fills) && n == NormalizeGroup(key, rows, Evidence(orders), CrossIds(fills))
    ensures if Sound(n, fills) then RestsOn(n.decision, rows, UniqueRows(rows), n.evidence)
            else FirstFault(n.decision.reason, n, fills)
  {
    var unique, crossIds := UniqueRows(rows), CrossIds(fills);
    GroupParts(key, rows, Evidence(orders), crossIds);
    SoundStated(rows, fills, n);
    if Sound(n, fills) {
      ReadableReason(rows, unique, n.evidenceValues, crossIds);
    } else {
      FaultOf(rows, unique, n.evidenceValues, crossIds);
    }
  }

  // ---- columns, exclusions and warnings ----------------------------------------

  function NameColumn(r: Fill): string { r.tickerName }

  function TimeColumn(r: Fill): string { r.fillTime }

  /** The text of the last row that has one. */
  ghost predicate LastGiven(text: string, rows: seq<Fill>, column: Fill -> string) {
    if forall r :: r in rows ==> column(r) == "" then text == ""
    else exists k :: 0 <= k < |rows| && text == column(rows[k]) != ""
                     && forall j :: k < j < |rows| ==> column(rows[j]) == ""
  }

  lemma {:induction false} LatestTextStated(
    rows: seq<Fill>, field: Fill -> string, column: Fill -> string)
    requires forall r :: r in rows ==> field(r) == column(r)
    ensures LastGiven(LatestText(rows, field), rows, column)
  {
    if rows != [] {
      var front, last := rows[..|rows| - 1], rows[|rows| - 1];
      assert rows == front + [last] && last in rows;
      if column(last) != "" {
        assert rows[|rows| - 1] == last;
      } else {
        LatestTextStated(front, field, column);
        if r :| r in rows && column(r) != "" {
          assert r in front;
          var k :| 0 <= k < |front| && LatestText(front, field) == column(front[k]) != ""
                   && forall j :: k < j < |front| ==> column(front[j]) == "";
          assert rows[k] == front[k];
        }
      }
    }
  }

  /** A counted sell of unknown profit. */
  ghost predicate Lacks(n: Normalized) {
    n.side.Sell? && !n.decision.reading.AmbiguousExcluded?
    && exists r :: r in n.decision.selected && r.profit.None?
  }

  /** Best effort leaves out what is ambiguous or lacks its profit; trust leaves out all doubt too. */
  ghost predicate IsExcluded(n: Normalized) {
    && (n.excludedBest <==> n.decision.reading.AmbiguousExcluded? || Lacks(n))
    && n.exclusion == (if Lacks(n) then ProfitMissing
                       else match n.decision.confidence
                            case NoConfidence => Ambiguous
                            case Low => LowNotTrusted
                            case Medium => MediumNotTrusted
                            case High => NotExcluded)
    && n.BestEffortProfit() == (if n.excludedBest then None else n.metrics.profit)
    && n.TrustedProfit() == (if n.exclusion == NotExcluded then n.metrics.profit else None)
  }

  ghost predicate HasHeader(n: Normalized) {
    forall r :: r in n.rows ==>
      && n.tradeDate == r.tradeDate && n.isMock == r.isMock && n.ticker == r.ticker
      && n.side == r.side && n.orderNo == r.orderNo
  }

  ghost predicate HasColumns(n: Normalized) {
    && HasHeader(n)
    && LastGiven(n.tickerName, n.rows, NameColumn)
    && LastGiven(n.fillTime, if n.decision.selected == [] then n.rows else n.decision.selected,
         TimeColumn)
  }

  /** What the findings of a row say of it. */
  ghost predicate IsFound(n: Normalized) {
    && (n.findings.missingLineage <==> LineageGap(n.rows))
    && (n.findings.invalidQuantity <==> !AllPositive(n.rows))
    && (n.findings.unknownSide <==> n.side.Unknown?)
    && (n.findings.hangulSide <==> exists r :: r in n.rows && HasHangul(r.rawSide))
    && (n.findings.conflict <==> |n.evidenceValues| > 1)
    && (n.findings.ambiguous <==> n.decision.reading.AmbiguousExcluded?)
    && (n.findings.sellWithoutOrder <==> n.side.Sell? && n.decision.reading.NoOrderNoFallback?)
    && (n.findings.missingProfit <==> Lacks(n))
  }

  lemma LackingStated(rows: seq<Fill>, d: Decision)
    requires rows != [] && (d.reading.AmbiguousExcluded? <==> d.selected == [])
    requires AllPositive(d.selected)
    ensures LacksProfit(rows, d)
       <==> Latest(rows).side.Sell? && !d.reading.AmbiguousExcluded?
            && exists r :: r in d.selected && r.profit.None?
  {
    if !d.reading.AmbiguousExcluded? {
      FiguresStated(d);
      assert IsTotal(SelectedMetrics(d).profit, d.selected, ProfitColumn);
    }
  }

  lemma HeaderStated(rows: seq<Fill>, r: Fill)
    requires rows != [] && OneGroup(rows) && r in rows
    ensures SameGroup(Latest(rows), r)
  {
    assert Latest(rows) in rows;
  }

  lemma ColumnsStated(key: GroupKey, rows: seq<Fill>, values: set<int>, d: Decision)
    requires rows != [] && OneGroup(rows)
    ensures HasColumns(Assemble(key, rows, values, d))
    ensures Assemble(key, rows, values, d).duplicates == |rows| - |UniqueRows(rows)|
  {
    var n := Assemble(key, rows, values, d);
    var timed := if d.selected == [] then rows else d.selected;
    assert HasHeader(n) by {
      forall r | r in rows ensures SameGroup(Latest(rows), r) {
        HeaderStated(rows, r);
      }
    }
    assert LastGiven(n.tickerName, rows, NameColumn) by {
      LatestTextStated(rows, TickerNameOf, NameColumn);
    }
    assert LastGiven(n.fillTime, timed, TimeColumn) by {
      LatestTextStated(timed, FillTimeOf, TimeColumn);
    }
  }

  lemma GroupExclusion(
    key: GroupKey, rows: seq<Fill>, orders: seq<OrderRow>, fills: seq<Fill>, n: Normalized)
    requires IsGroup(rows, fills) && n == NormalizeGroup(key, rows, Evidence(orders), CrossIds(fills))
    ensures IsExcluded(n) && IsFound(n)
  {
    GroupParts(key, rows, Evidence(orders), CrossIds(fills));
    CountedRows(rows, UniqueRows(rows), n.evidenceValues, CrossIds(fills));
    GroupReading(key, rows, orders, fills, n);
    LackingStated(rows, n.decision);
    SoundStated(rows, fills, n);
  }

  // ---- main results ------------------------------------------------------------

  /** The row stands for all fills of its group. */
  ghost predicate IsWhole(n: Normalized, fills: seq<Fill>) {
    && IsGroup(n.rows, fills)
    && forall r, q :: r in n.rows && q in fills && SameGroup(q, r) ==> q in n.rows
  }

  /** The evidence of the row is what the snapshots of its order report. */
  ghost predicate HasEvidence(n: Normalized, orders: seq<OrderRow>)
    requires n.rows != []
  {
    && (forall q :: q in n.evidenceValues <==> Evidenced(orders, n.rows[|n.rows| - 1], q))
    && (forall q :: n.evidence == Some(q) <==> n.evidenceValues == {q})
  }

  /** The row's reading, counted rows, confidence and reason are those its distinct rows call for. */
  ghost predicate IsRead(n: Normalized, unique: seq<Fill>, fills: seq<Fill>)
    requires n.rows != []
  {
    && AreDistinct(unique, n.rows) && n.duplicates == |n.rows| - |unique|
    && ReadAs(n.decision, n.rows, unique, Sound(n, fills), n.evidence)
    && if Sound(n, fills) then RestsOn(n.decision, n.rows, unique, n.evidence)
       else FirstFault(n.decision.reason, n, fills)
  }

  lemma OutputGroup(
    fills: seq<Fill>, orders: seq<OrderRow>, text: GroupKey -> string, i: nat)
    requires i < |Normalize(fills, orders, text)|
    ensures var n := Normalize(fills, orders, text)[i];
            && IsWhole(n, fills)
            && n == NormalizeGroup(n.key, n.rows, Evidence(orders), CrossIds(fills))
  {
    SortedKeysHaveRows(fills, text);
    NormalizeCovers(fills, orders, text);
    var keys := SortedKeys(fills, text);
    OutputIndex(NormalizeOne(fills, Evidence(orders), CrossIds(fills)), keys, i);
    GroupRowsFacts(fills, keys[i]);
    RowOrderTotal();
    SortSorts(RowLeq, Group(KeyOf, keys[i], fills));
    var rows := GroupRows(fills, keys[i]);
    forall a, b | 0 <= a < b < |rows| ensures NotAfter(rows[a], rows[b]) {
      OrderStated(rows[a], rows[b]);
    }
    forall a, b | a in fills && b in fills ensures KeyOf(a) == KeyOf(b) <==> SameGroup(a, b) {
      GroupsStated(a, b);
    }
  }

  /** The outputs come in the order of their keys' texts. */
  lemma OutputsInKeyOrder(
    fills: seq<Fill>, orders: seq<OrderRow>, text: GroupKey -> string, i: nat, j: nat)
    requires i < j < |Normalize(fills, orders, text)|
    ensures var out := Normalize(fills, orders, text);
            TextLeq(text(out[i].key), text(out[j].key))
  {
    NormalizeCovers(fills, orders, text);
    KeyOrderTotal(text);
    SortSorts(KeyOrder(text), KeysOf(KeyOf, fills));
  }

  lemma GroupIsRead(fills: seq<Fill>, orders: seq<OrderRow>, n: Normalized)
    requires IsGroup(n.rows, fills)
    requires n == NormalizeGroup(n.key, n.rows, Evidence(orders), CrossIds(fills))
    ensures HasEvidence(n, orders) && IsRead(n, UniqueRows(n.rows), fills) && HasColumns(n)
  {
    GroupParts(n.key, n.rows, Evidence(orders), CrossIds(fills));
    forall q ensures q in n.evidenceValues <==> Evidenced(orders, n.rows[|n.rows| - 1], q) {
      EvidenceStated(n.rows, orders, q);
    }
    ColumnsStated(n.key, n.rows, n.evidenceValues, n.decision);
    GroupReading(n.key, n.rows, orders, fills, n);
    ReasonStated(n.key, n.rows, orders, fills, n);
  }

  /**
   * Every output is a whole group in source order, and its reading, counted rows, confidence and
   * reason, its evidence, columns, exclusions and findings are those that its rows call for.
   */
  lemma OutputsAreRead(fills: seq<Fill>, orders: seq<OrderRow>, text: GroupKey -> string, i: nat)
    returns (unique: seq<Fill>)
    requires i < |Normalize(fills, orders, text)|
    ensures var n := Normalize(fills, orders, text)[i];
            && IsWhole(n, fills) && HasEvidence(n, orders) && IsRead(n, unique, fills)
            && HasColumns(n) && IsExcluded(n) && IsFound(n)
  {
    var n := Normalize(fills, orders, text)[i];
    OutputGroup(fills, orders, text, i);
    unique := UniqueRows(n.rows);
    GroupIsRead(fills, orders, n);
    GroupExclusion(n.key, n.rows, orders, fills, n);
  }

  lemma {:induction false} WarningsOfOutputs(outputs: seq<Normalized>, start: set<Warning>, w: Warning)
    ensures w in Warnings(outputs, start)
       <==> w in start || exists n :: n in outputs && n.findings.Raises(w)
  {
    if outputs != [] {
      var front, last := outputs[..|outputs| - 1], outputs[|outputs| - 1];
      WarningsOfOutputs(front, start, w);
      assert outputs == front + [last];
    }
  }

  lemma OutputIsFound(fills: seq<Fill>, orders: seq<OrderRow>, text: GroupKey -> string, n: Normalized)
    requires n in Normalize(fills, orders, text)
    ensures n.rows != [] && HasHeader(n) && IsFound(n) && forall r :: r in n.rows ==> r in fills
  {
    var out := Normalize(fills, orders, text);
    var i :| 0 <= i < |out| && out[i] == n;
    var _ := OutputsAreRead(fills, orders, text, i);
  }

  lemma FillIsRead(fills: seq<Fill>, orders: seq<OrderRow>, text: GroupKey -> string, r: Fill)
    returns (n: Normalized)
    requires r in fills
    ensures n in Normalize(fills, orders, text) && r in n.rows
  {
    var out := Normalize(fills, orders, text);
    NormalizationLosesNothing(fills, orders, text);
    var i :| 0 <= i < |out| && out[i].key == KeyOf(r);
    n := out[i];
    OutputGroup(fills, orders, text, i);
    assert n.rows[0] in n.rows;
    GroupsStated(r, n.rows[0]);
  }

  ghost predicate HasRow(rows: seq<Fill>, holds: Fill -> bool) {
    exists r :: r in rows && holds(r)
  }

  predicate NoShares(r: Fill) { r.quantity.None? || r.quantity.value <= 0 }

  predicate Sideless(r: Fill) { r.side.Unknown? }

  predicate HangulSideless(r: Fill) { r.side.Unknown? && HasHangul(r.rawSide) }

  /** A warning stands for a fact about the fills, or about the rows they are read into. */
  ghost predicate Warrants(w: Warning, fills: seq<Fill>, outputs: seq<Normalized>) {
    match w
    case DuplicateSourceIdLineage => exists id :: Crosses(id, fills)
    case SourceIdLineageMissing => exists n :: n in outputs && LineageGap(n.rows)
    case NonPositiveNormalizedQuantity => HasRow(fills, NoShares)
    case UnknownSide => HasRow(fills, Sideless)
    case UnknownKoreanSide => HasRow(fills, HangulSideless)
    case OrderQuantityEvidenceConflict => exists n :: n in outputs && |n.evidenceValues| > 1
    case AmbiguousFillsExcluded =>
      exists n :: n in outputs && n.decision.reading.AmbiguousExcluded?
    case SellWithoutOrderNo =>
      exists n :: n in outputs && n.side.Sell? && n.decision.reading.NoOrderNoFallback?
    case MissingSellProfit => exists n :: n in outputs && Lacks(n)
  }

  /** What an output is warned of, said of its rows. */
  ghost predicate RowsWarrant(w: Warning, n: Normalized) {
    match w
    case DuplicateSourceIdLineage => false
    case SourceIdLineageMissing => LineageGap(n.rows)
    case NonPositiveNormalizedQuantity => HasRow(n.rows, NoShares)
    case UnknownSide => HasRow(n.rows, Sideless)
    case UnknownKoreanSide => HasRow(n.rows, HangulSideless)
    case OrderQuantityEvidenceConflict => |n.evidenceValues| > 1
    case AmbiguousFillsExcluded => n.decision.reading.AmbiguousExcluded?
    case SellWithoutOrderNo => n.side.Sell? && n.decision.reading.NoOrderNoFallback?
    case MissingSellProfit => Lacks(n)
  }

  lemma FindingsStated(n: Normalized, w: Warning)
    requires n.rows != [] && HasHeader(n) && IsFound(n)
    ensures n.findings.Raises(w) <==> RowsWarrant(w, n)
  {
    assert n.rows[0] in n.rows;
  }

  lemma WarningsByOutput(
    fills: seq<Fill>, orders: seq<OrderRow>, text: GroupKey -> string, w: Warning)
    ensures var out := Normalize(fills, orders, text);
            (exists n :: n in out && n.findings.Raises(w)) <==> exists n :: n in out && RowsWarrant(w, n)
  {
    var out := Normalize(fills, orders, text);
    forall n | n in out ensures n.findings.Raises(w) <==> RowsWarrant(w, n) {
      OutputIsFound(fills, orders, text, n);
      FindingsStated(n, w);
    }
  }

  /** Some fill is such a row exactly when some output has such a row. */
  ghost predicate RowsSplit(fills: seq<Fill>, outputs: seq<Normalized>, holds: Fill -> bool) {
    HasRow(fills, holds) <==> exists n :: n in outputs && HasRow(n.rows, holds)
  }

  lemma RowsOfFills(
    fills: seq<Fill>, orders: seq<OrderRow>, text: GroupKey -> string, holds: Fill -> bool)
    ensures RowsSplit(fills, Normalize(fills, orders, text), holds)
  {
    if r :| r in fills && holds(r) {
      var n := FillIsRead(fills, orders, text, r);
      assert HasRow(n.rows, holds);
    }
    if n :| n in Normalize(fills, orders, text) && HasRow(n.rows, holds) {
      OutputIsFound(fills, orders, text, n);
    }
  }

  lemma WarrantedAcross(w: Warning, fills: seq<Fill>, outputs: seq<Normalized>)
    requires w != DuplicateSourceIdLineage
    requires RowsSplit(fills, outputs, NoShares) && RowsSplit(fills, outputs, Sideless)
    requires RowsSplit(fills, outputs, HangulSideless)
    ensures Warrants(w, fills, outputs) <==> exists n :: n in outputs && RowsWarrant(w, n)
  {
  }

  lemma WarrantedByRows(
    fills: seq<Fill>, orders: seq<OrderRow>, text: GroupKey -> string, w: Warning)
    requires w != DuplicateSourceIdLineage
    ensures Warrants(w, fills, Normalize(fills, orders, text))
       <==> exists n :: n in Normalize(fills, orders, text) && RowsWarrant(w, n)
  {
    RowsOfFills(fills, orders, text, NoShares);
    RowsOfFills(fills, orders, text, Sideless);
    RowsOfFills(fills, orders, text, HangulSideless);
    WarrantedAcross(w, fills, Normalize(fills, orders, text));
  }

  lemma CrossingStated(fills: seq<Fill>)
    ensures CrossIds(fills) != {} <==> exists id :: Crosses(id, fills)
  {
    forall id ensures id in CrossIds(fills) <==> Crosses(id, fills) {
      CrossIdsStated(fills, id);
    }
    assert CrossIds(fills) != {} ==> exists id :: id in CrossIds(fills);
  }

  lemma RaisedByRows(fills: seq<Fill>, orders: seq<OrderRow>, text: GroupKey -> string, w: Warning)
    ensures w in AllWarnings(fills, orders, text, {})
       <==> (w == DuplicateSourceIdLineage && CrossIds(fills) != {})
            || exists n :: n in Normalize(fills, orders, text) && RowsWarrant(w, n)
  {
    var start := if CrossIds(fills) != {} then {} + {DuplicateSourceIdLineage} else {};
    WarningsOfOutputs(Normalize(fills, orders, text), start, w);
    WarningsByOutput(fills, orders, text, w);
  }

  /** A normalization that starts without warnings raises exactly those that its data warrants. */
  lemma WarningsStated(fills: seq<Fill>, orders: seq<OrderRow>, text: GroupKey -> string, w: Warning)
    ensures w in AllWarnings(fills, orders, text, {})
       <==> Warrants(w, fills, Normalize(fills, orders, text))
  {
    RaisedByRows(fills, orders, text, w);
    if w == DuplicateSourceIdLineage {
      CrossingStated(fills);
      assert forall n :: !RowsWarrant(w, n);
    } else {
      WarrantedByRows(fills, orders, text, w);
    }
  }
}
