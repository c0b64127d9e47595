/** Groups stored fill rows by order and decides whether they are deltas, snapshots or duplicates. */
module FillReader {
  import opened Common
  import opened Grouping
  import opened Sorting
  import opened SourceOrder

  datatype Side = Buy | Sell | Unknown

  /** A stored fill row after typing. `raw` is the canonical text of the whole source row. */
  datatype Fill = Fill(
    raw: string, sourceId: string, sourceNumber: Option<int>, tradeDate: string,
    isMock: Option<bool>, ticker: string, tickerName: string, rawSide: string, side: Side,
    orderNo: string, fillTime: string, quantity: Option<int>, price: Option<real>,
    amount: Option<real>, profit: Option<real>, profitRate: Option<real>, createdAt: string)

  datatype GroupKey =
    | OrderGroup(tradeDate: string, isMock: Option<bool>, side: Side, ticker: string, orderNo: string)
    | FallbackGroup(tradeDate: string, isMock: Option<bool>, side: Side, ticker: string,
                    fillTime: string, price: Option<real>, quantity: Option<int>)

  datatype OrderKey = OrderKey(
    tradeDate: string, isMock: Option<bool>, side: Side, ticker: string, orderNo: string)

  datatype Signature = Signature(
    order: OrderKey, fillTime: string, quantity: Option<int>, price: Option<real>,
    amount: Option<real>, profit: Option<real>, profitRate: Option<real>)

  /** An order snapshot: the filled quantity may be given or derived from what is left. */
  datatype OrderRow = OrderRow(
    key: OrderKey, filledQty: Option<int>, orderQty: Option<int>, remainingQty: Option<int>,
    quantity: Option<int>, unfilled: Option<int>)

  datatype Warning =
    | DuplicateSourceIdLineage | SourceIdLineageMissing | NonPositiveNormalizedQuantity
    | UnknownSide | UnknownKoreanSide | OrderQuantityEvidenceConflict | AmbiguousFillsExcluded
    | SellWithoutOrderNo | MissingSellProfit

  datatype Reading =
    | SingleRow | ExactDuplicateCollapsed | LegacyCumulativeLatest | DeltaRowsSummed
    | NoOrderNoFallback | AmbiguousExcluded

  datatype Confidence = High | Medium | Low | NoConfidence

  datatype Reason =
    | SharedSourceId | LineageMissing | SideUnknown | QuantityInvalid | EvidenceConflict
    | FallbackIdentity | FallbackDisagrees | SamePayload | OneRow | EvidenceIsSum
    | EvidenceIsLatest | Decreasing | Increasing | EvidenceFitsNeither | NoInterpretation

  datatype Exclusion =
    | NotExcluded | ProfitMissing | Ambiguous | MediumNotTrusted | LowNotTrusted | NotHigh

  datatype Decision = Decision(
    reading: Reading, confidence: Confidence, reason: Reason, selected: seq<Fill>)

  datatype Metrics = Metrics(
    quantity: Option<int>, price: Option<real>, amount: Option<real>, profit: Option<real>,
    profitRate: Option<real>)

  const NO_METRICS := Metrics(None, None, None, None, None)

  /** One output row; `rows` are the group's source rows in order, which the list columns print. */
  datatype Normalized = Normalized(
    key: GroupKey, tradeDate: string, isMock: Option<bool>, ticker: string, tickerName: string,
    side: Side, orderNo: string, fillTime: string, rows: seq<Fill>, sourceIds: seq<string>,
    decision: Decision, metrics: Metrics, duplicates: int, evidenceValues: set<int>,
    evidence: Option<int>, rawQuantity: int, rawProfit: real, exclusion: Exclusion,
    excludedBest: bool, findings: Findings)
  {
    predicate ExcludedTrusted() { exclusion != NotExcluded }

    function TrustedProfit(): Option<real> { if ExcludedTrusted() then None else metrics.profit }

    function BestEffortProfit(): Option<real> { if excludedBest then None else metrics.profit }
  }

  // ---- keys and orders -------------------------------------------------------

  function KeyOf(row: Fill): GroupKey {
    if row.orderNo != "" then
      OrderGroup(row.tradeDate, row.isMock, row.side, row.ticker, row.orderNo)
    else
      FallbackGroup(row.tradeDate, row.isMock, row.side, row.ticker, row.fillTime, row.price,
        row.quantity)
  }

  function OrderOf(row: Fill): OrderKey {
    OrderKey(row.tradeDate, row.isMock, row.side, row.ticker, row.orderNo)
  }

  function SignatureOf(row: Fill): Signature {
    Signature(OrderOf(row), row.fillTime, row.quantity, row.price, row.amount, row.profit,
      row.profitRate)
  }

  function SortKeyOf(row: Fill): SortKey {
    SortKey(row.createdAt, row.sourceNumber, row.sourceId, row.raw)
  }

  predicate RowLeq(a: Fill, b: Fill) { KeyLeq(SortKeyOf(a), SortKeyOf(b)) }

  lemma RowOrderTotal()
    ensures Total(RowLeq)
  {
    forall a, b ensures RowLeq(a, b) || RowLeq(b, a) {
      KeyLeqTotal(SortKeyOf(a), SortKeyOf(b));
    }
    forall a, b, c | RowLeq(a, b) && RowLeq(b, c) ensures RowLeq(a, c) {
      KeyLeqTransitive(SortKeyOf(a), SortKeyOf(b), SortKeyOf(c));
    }
  }

  // ---- one group -------------------------------------------------------------

  /** A dictionary keyed by signature: a later row takes the place of an earlier equal one. */
  function Put(kept: seq<Fill>, row: Fill): seq<Fill> {
    if kept == [] then [row]
    else if SignatureOf(kept[0]) == SignatureOf(row) then [row] + kept[1..]
    else [kept[0]] + Put(kept[1..], row)
  }

  function SignatureRows(rows: seq<Fill>): seq<Fill> {
    if rows == [] then []
    else Put(SignatureRows(rows[..|rows| - 1]), rows[|rows| - 1])
  }

  function UniqueRows(rows: seq<Fill>): seq<Fill> { Sort(RowLeq, SignatureRows(rows)) }

  function SourceIdOf(r: Fill): string { r.sourceId }

  function SourceIds(rows: seq<Fill>): seq<string> {
    Distinct(Filter((id: string) => id != "", Map(SourceIdOf, rows)))
  }

  function Quantity(row: Fill): int { row.quantity.GetOr(0) }

  function SumQuantity(rows: seq<Fill>): int { SumInt(Quantity, rows) }

  predicate InvalidQuantity(row: Fill) { row.quantity.None? || row.quantity.value <= 0 }

  predicate Rising(rows: seq<Fill>) {
    forall i :: 0 <= i < |rows| - 1 ==> Quantity(rows[i]) < Quantity(rows[i + 1])
  }

  predicate Falling(rows: seq<Fill>) {
    forall i :: 0 <= i < |rows| - 1 ==> Quantity(rows[i]) > Quantity(rows[i + 1])
  }

  function Latest(rows: seq<Fill>): Fill
    requires rows != []
  {
    rows[|rows| - 1]
  }

  /** The reading of several different rows of one order. */
  function MultiRowDecision(unique: seq<Fill>, evidence: Option<int>): Decision
    requires unique != []
  {
    var sum, latest := SumQuantity(unique), Quantity(Latest(unique));
    if evidence.Some? && evidence.value == sum && evidence.value != latest then
      Decision(DeltaRowsSummed, High, EvidenceIsSum, unique)
    else if evidence.Some? && Rising(unique) && evidence.value == latest && evidence.value != sum then
      Decision(LegacyCumulativeLatest, High, EvidenceIsLatest, [Latest(unique)])
    else if evidence.None? && Falling(unique) then
      Decision(DeltaRowsSummed, Medium, Decreasing, unique)
    else if evidence.None? && Rising(unique) then Excluded(Increasing)
    else if evidence.Some? then Excluded(EvidenceFitsNeither)
    else Excluded(NoInterpretation)
  }

  function Excluded(reason: Reason): Decision {
    Decision(AmbiguousExcluded, NoConfidence, reason, [])
  }

  predicate MissingLineage(rows: seq<Fill>) { |SourceIds(rows)| != |rows| }

  predicate LineageConflict(rows: seq<Fill>, crossIds: set<string>) {
    exists id :: id in SourceIds(rows) && id in crossIds
  }

  function Decide(
    rows: seq<Fill>, unique: seq<Fill>, evidenceValues: set<int>, crossIds: set<string>): Decision
    requires rows != [] && unique != []
  {
    var latest := Latest(rows);
    if LineageConflict(rows, crossIds) then Excluded(SharedSourceId)
    else if MissingLineage(rows) then Excluded(LineageMissing)
    else if latest.side.Unknown? then Excluded(SideUnknown)
    else if HasInvalidQuantity(unique) then Excluded(QuantityInvalid)
    else if |evidenceValues| > 1 then Excluded(EvidenceConflict)
    else if latest.orderNo == "" then
      if |unique| == 1 then Decision(NoOrderNoFallback, Low, FallbackIdentity, unique)
      else Excluded(FallbackDisagrees)
    else if |unique| == 1 then
      if |rows| > 1 then Decision(ExactDuplicateCollapsed, High, SamePayload, unique)
      else Decision(SingleRow, High, OneRow, unique)
    else MultiRowDecision(unique, TheOnly(evidenceValues))
  }

  lemma Singleton(values: set<int>)
    requires |values| == 1
    ensures exists v :: v in values && values == {v}
  {
    assert (forall v :: v !in values) ==> values == {};
    var v :| v in values;
    assert |values - {v}| == 0;
    assert values == {v} + (values - {v});
  }

  /** The value of a one-element set. */
  function TheOnly(values: set<int>): (r: Option<int>)
    ensures r.Some? <==> |values| == 1
    ensures r.Some? ==> values == {r.value}
  {
    if |values| != 1 then None
    else
      Singleton(values);
      var v :| v in values && values == {v};
      Some(v)
  }

  function TickerNameOf(r: Fill): string { r.tickerName }

  function FillTimeOf(r: Fill): string { r.fillTime }

  function PriceOf(r: Fill): Option<real> { r.price }

  function AmountOf(r: Fill): Option<real> { r.amount }

  function ProfitOf(r: Fill): Option<real> { r.profit }

  function ProfitRateOf(r: Fill): Option<real> { r.profitRate }

  function SumOfAll(values: seq<Option<real>>): Option<real> {
    if None in values then None
    else Some(SumBy((v: Option<real>) => v.GetOr(0.0), values))
  }

  function Product(value: real, quantity: int): real { value * quantity as real }

  function Weighted(rows: seq<Fill>, field: Fill -> Option<real>): Option<real> {
    if rows == [] || (exists r :: r in rows && field(r).None?) || SumQuantity(rows) <= 0 then None
    else
      Some(SumBy((r: Fill) => Product(field(r).GetOr(0.0), Quantity(r)), rows)
           / SumQuantity(rows) as real)
  }

  function SelectedMetrics(decision: Decision): Metrics {
    var rows := decision.selected;
    if decision.reading.AmbiguousExcluded? || rows == [] then NO_METRICS
    else Metrics(
      Some(SumQuantity(rows)),
      Weighted(rows, PriceOf),
      SumOfAll(Map(AmountOf, rows)),
      SumOfAll(Map(ProfitOf, rows)),
      Weighted(rows, ProfitRateOf))
  }

  function TrustedExclusion(reading: Reading, confidence: Confidence, missingProfit: bool): Exclusion {
    if missingProfit then ProfitMissing
    else if reading.AmbiguousExcluded? then Ambiguous
    else if confidence.Medium? then MediumNotTrusted
    else if confidence.Low? then LowNotTrusted
    else if !confidence.High? then NotHigh
    else NotExcluded
  }

  /** The last non-empty text of a field. */
  function LatestText(rows: seq<Fill>, field: Fill -> string): string {
    if rows == [] then ""
    else if field(rows[|rows| - 1]) != "" then field(rows[|rows| - 1])
    else LatestText(rows[..|rows| - 1], field)
  }

  /** A sell that is counted but whose profit is not known. */
  predicate LacksProfit(rows: seq<Fill>, decision: Decision)
    requires rows != []
  {
    Latest(rows).side.Sell? && !decision.reading.AmbiguousExcluded?
      && SelectedMetrics(decision).profit.None?
  }

  function Assemble(key: GroupKey, rows: seq<Fill>, evidenceValues: set<int>, decision: Decision)
    : Normalized
    requires rows != []
  {
    var latest := Latest(rows);
    Normalized(
      key, latest.tradeDate, latest.isMock, latest.ticker, LatestText(rows, TickerNameOf),
      latest.side, latest.orderNo,
      LatestText(if decision.selected != [] then decision.selected else rows, FillTimeOf),
      rows, SourceIds(rows), decision, SelectedMetrics(decision), |rows| - |UniqueRows(rows)|,
      evidenceValues, TheOnly(evidenceValues), SumQuantity(rows), SumBy(RawProfit, rows),
      TrustedExclusion(decision.reading, decision.confidence, LacksProfit(rows, decision)),
      decision.reading.AmbiguousExcluded? || LacksProfit(rows, decision),
      FindingsOf(rows, evidenceValues, decision))
  }

  function GroupEvidence(rows: seq<Fill>, evidence: map<OrderKey, set<int>>): set<int>
    requires rows != []
  {
    var latest := Latest(rows);
    if latest.orderNo != "" && OrderOf(latest) in evidence then evidence[OrderOf(latest)] else {}
  }

  function NormalizeGroup(
    key: GroupKey, rows: seq<Fill>, evidence: map<OrderKey, set<int>>, crossIds: set<string>)
    : Normalized
    requires rows != []
  {
    PutKeepsRows(rows);
    var values := GroupEvidence(rows, evidence);
    Assemble(key, rows, values, Decide(rows, UniqueRows(rows), values, crossIds))
  }

  lemma NormalizeGroupCarries(
    key: GroupKey, rows: seq<Fill>, evidence: map<OrderKey, set<int>>, crossIds: set<string>)
    requires rows != []
    ensures var n := NormalizeGroup(key, rows, evidence, crossIds);
            n.key == key && n.rows == rows && n.rawProfit == SumBy(RawProfit, rows)
  {
  }

  function RawProfit(row: Fill): real { row.profit.GetOr(0.0) }

  predicate HasHangul(text: string) {
    exists i :: 0 <= i < |text| && '\U{AC00}' <= text[i] <= '\U{D7A3}'
  }

  predicate HasInvalidQuantity(rows: seq<Fill>) { exists r :: r in rows && InvalidQuantity(r) }

  predicate HasHangulSide(rows: seq<Fill>) { exists r :: r in rows && HasHangul(r.rawSide) }

  /** What one group is warned about. */
  datatype Findings = Findings(
    missingLineage: bool, invalidQuantity: bool, unknownSide: bool, hangulSide: bool,
    conflict: bool, ambiguous: bool, sellWithoutOrder: bool, missingProfit: bool)
  {
    predicate Raises(w: Warning) {
      match w
      case DuplicateSourceIdLineage => false
      case SourceIdLineageMissing => missingLineage
      case NonPositiveNormalizedQuantity => invalidQuantity
      case UnknownSide => unknownSide
      case UnknownKoreanSide => unknownSide && hangulSide
      case OrderQuantityEvidenceConflict => conflict
      case AmbiguousFillsExcluded => ambiguous
      case SellWithoutOrderNo => sellWithoutOrder
      case MissingSellProfit => missingProfit
    }
  }

  function FindingsOf(rows: seq<Fill>, evidenceValues: set<int>, decision: Decision): Findings
    requires rows != []
  {
    Findings(
      MissingLineage(rows), HasInvalidQuantity(UniqueRows(rows)), Latest(rows).side.Unknown?,
      HasHangulSide(rows), |evidenceValues| > 1, decision.reading.AmbiguousExcluded?,
      Latest(rows).side.Sell? && decision.reading.NoOrderNoFallback?, LacksProfit(rows, decision))
  }

  function GroupWarnings(findings: Findings): set<Warning> {
    set w: Warning | findings.Raises(w)
  }

  // ---- facts about the signature dictionary -----------------------------------

  lemma {:induction false} PutFacts(kept: seq<Fill>, row: Fill)
    ensures Put(kept, row) != []
    ensures row in Put(kept, row)
    ensures forall r :: r in Put(kept, row) ==> r == row || r in kept
    ensures (exists r :: r in kept && SignatureOf(r) == SignatureOf(row))
              ==> |Put(kept, row)| == |kept|
    ensures (forall r :: r in kept ==> SignatureOf(r) != SignatureOf(row))
              ==> Put(kept, row) == kept + [row]
    ensures forall s :: s in Map(SignatureOf, Put(kept, row))
                   <==> s in Map(SignatureOf, kept) || s == SignatureOf(row)
  {
    if kept == [] {
    } else if SignatureOf(kept[0]) == SignatureOf(row) {
      assert Put(kept, row)[1..] == kept[1..];
      assert kept == [kept[0]] + kept[1..];
    } else {
      PutFacts(kept[1..], row);
      assert kept == [kept[0]] + kept[1..];
      assert Put(kept, row)[1..] == Put(kept[1..], row);
    }
  }

  lemma {:induction false} PutKeepsRows(rows: seq<Fill>)
    requires rows != []
    ensures SignatureRows(rows) != [] && UniqueRows(rows) != []
  {
  }
}
