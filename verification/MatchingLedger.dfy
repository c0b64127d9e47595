/** The matching ledger: sells, earliest first, use up the capacity of their candidate row. */
module MatchingLedger {
  import opened Common
  import opened Sorting

  /** The date text and upper-case symbol rows are matched under. */
  datatype Key = Key(date: string, symbol: string)

  /** A month, a day and the seconds of the clock. */
  datatype When = When(month: int, day: int, second: int)

  datatype Side = Buy | Sell | Other

  datatype Fill = Fill(
    key: Key, second: int, side: Side, sideText: string, orderNo: string, timeText: string,
    hasId: bool)

  datatype Candidate = Candidate(
    key: Key, soldCount: int, hasScore: bool, source: string, eligible: bool)

  datatype DuplicateKey = DuplicateKey(
    key: Key, sideText: string, orderNo: string, timeText: string)

  /** `duplicates` says of each suspected fill whether it looks like part of a split fill. */
  datatype Inputs = Inputs(
    fills: seq<Fill>, candidates: seq<Candidate>, evaluations: seq<Candidate>,
    duplicates: map<DuplicateKey, bool>)

  datatype Status = Matched | Unmatched | PartialGrouped | DuplicateSuspect

  datatype Row = Row(
    number: int, sell: Fill, buy: Option<Fill>, candidate: Option<Candidate>, status: Status,
    reason: string)

  // ---- what the rows of a key look like -------------------------------------------

  predicate IsDigit(c: char) { '0' <= c <= '9' }

  predicate AllDigits(text: string) { forall i :: 0 <= i < |text| ==> IsDigit(text[i]) }

  function TwoDigits(text: string): int
    requires |text| == 2
  {
    (text[0] as int - '0' as int) * 10 + (text[1] as int - '0' as int)
  }

  predicate IsFullDate(d: string) {
    |d| == 10 && d[4] == '-' && d[7] == '-' && AllDigits(d[..4] + d[5..7] + d[8..])
  }

  predicate IsShortDate(d: string) { |d| == 5 && d[2] == '-' && AllDigits(d[..2] + d[3..]) }

  /** The month and day of a date text with or without a year; the year plays no part. */
  function WhenOf(f: Fill): When {
    var d := f.key.date;
    if IsFullDate(d) then When(TwoDigits(d[5..7]), TwoDigits(d[8..]), f.second)
    else if IsShortDate(d) then When(TwoDigits(d[..2]), TwoDigits(d[3..]), f.second)
    else When(0, 0, f.second)
  }

  predicate WhenLeq(a: When, b: When) {
    a.month < b.month
    || (a.month == b.month && (a.day < b.day || (a.day == b.day && a.second <= b.second)))
  }

  predicate Earlier(a: Fill, b: Fill) { WhenLeq(WhenOf(a), WhenOf(b)) }

  predicate IsSell(f: Fill) { f.side == Sell }

  function Sells(inputs: Inputs): seq<Fill> { Sort(Earlier, Filter(IsSell, inputs.fills)) }

  function BuyOf(symbol: string): Fill -> bool { (f: Fill) => f.side == Buy && f.key.symbol == symbol }

  function Buys(inputs: Inputs, symbol: string): seq<Fill> {
    Sort(Earlier, Filter(BuyOf(symbol), inputs.fills))
  }

  function NotAfter(sell: Fill): Fill -> bool { f => Earlier(f, sell) }

  function BuysBefore(inputs: Inputs, sell: Fill): seq<Fill> {
    Filter(NotAfter(sell), Buys(inputs, sell.key.symbol))
  }

  function At(key: Key): Candidate -> bool { (c: Candidate) => c.key == key }

  function EligibleAt(key: Key): Candidate -> bool { (c: Candidate) => c.key == key && c.eligible }

  function ForSymbol(symbol: string): Candidate -> bool { (c: Candidate) => c.key.symbol == symbol }

  function CandidatesAt(inputs: Inputs, key: Key): seq<Candidate> {
    Filter(At(key), inputs.candidates)
  }

  function EvaluationsAt(inputs: Inputs, key: Key): seq<Candidate> {
    Filter(EligibleAt(key), inputs.evaluations)
  }

  function LastOf<T>(s: seq<T>): Option<T> { if s == [] then None else Some(s[|s| - 1]) }

  /** A candidate row is preferred to an evaluation. */
  function Pick(candidates: seq<Candidate>, evaluations: seq<Candidate>): Option<Candidate> {
    if candidates != [] then LastOf(candidates) else LastOf(evaluations)
  }

  function PickAt(inputs: Inputs, key: Key): Option<Candidate> {
    Pick(CandidatesAt(inputs, key), EvaluationsAt(inputs, key))
  }

  function Sold(key: Key): Candidate -> int { (c: Candidate) => if c.key == key then c.soldCount else 0 }

  /** How many sells the candidate rows of a key account for. */
  function Capacity(inputs: Inputs, key: Key): int { SumInt(Sold(key), inputs.candidates) }

  predicate BlankChar(c: char) { c in " \t\n\r" }

  predicate Blank(text: string) { forall i :: 0 <= i < |text| ==> BlankChar(text[i]) }

  function RowCount(inputs: Inputs, key: Key): nat {
    Max(|CandidatesAt(inputs, key)|, |EvaluationsAt(inputs, key)|)
  }

  /** The key has one row at most, and what the row says can be credited to a sell. */
  predicate Creditable(inputs: Inputs, key: Key) {
    && RowCount(inputs, key) <= 1
    && PickAt(inputs, key).Some?
    && PickAt(inputs, key).value.hasScore && !Blank(PickAt(inputs, key).value.source)
  }

  function DuplicateOf(f: Fill): DuplicateKey {
    DuplicateKey(f.key, f.sideText, f.orderNo, f.timeText)
  }

  // ---- which sells are matched ------------------------------------------------------

  /** The sell could be credited if its key had capacity left. */
  predicate Claims(inputs: Inputs, sell: Fill) {
    DuplicateOf(sell) !in inputs.duplicates && Creditable(inputs, sell.key)
  }

  function ClaimsAt(inputs: Inputs, key: Key): Fill -> bool {
    (f: Fill) => f.key == key && Claims(inputs, f)
  }

  /** How many of the first `i` sells claim the key's capacity. */
  function Rank(inputs: Inputs, sells: seq<Fill>, i: nat, key: Key): nat
    requires i <= |sells|
  {
    CountBy(ClaimsAt(inputs, key), sells[..i])
  }

  /** Sell `i` is matched: it claims, and fewer sells claimed before it than the key has capacity. */
  predicate IsMatched(inputs: Inputs, sells: seq<Fill>, i: nat)
    requires i < |sells|
  {
    Claims(inputs, sells[i])
    && Rank(inputs, sells, i, sells[i].key) < Capacity(inputs, sells[i].key)
  }

  // ---- the reason of an unmatched sell -----------------------------------------------

  function MissingField(sell: Fill): Option<string> {
    if sell.key.symbol == "" then Some("MISSING_SYMBOL")
    else if sell.key.date == "" then Some("MISSING_TRADE_DATE")
    else if sell.orderNo == "" then Some("MISSING_SELL_ORDER_ID")
    else if !sell.hasId then Some("MISSING_SELL_FILL_ID")
    else None
  }

  /** The reason, and the candidate shown in place of the picked one if there is one. */
  function UnmatchedReason(inputs: Inputs, sell: Fill): (string, Option<Candidate>) {
    var picked := PickAt(inputs, sell.key);
    var bySymbol := LastOf(Filter(ForSymbol(sell.key.symbol), inputs.evaluations));
    var before := BuysBefore(inputs, sell);
    if MissingField(sell).Some? then (MissingField(sell).value, None)
    else if RowCount(inputs, sell.key) > 1 then ("MULTIPLE_CANDIDATE_ROWS_AMBIGUOUS", picked)
    else if before == [] then
      (if exists b :: b in Buys(inputs, sell.key.symbol) && !Earlier(b, sell)
       then "SELL_BEFORE_BUY_TIME" else "MISSING_BUY_LINK", bySymbol)
    else if picked.None? then
      (if bySymbol.None? then "NO_CANDIDATE_ROW_FOR_SYMBOL_DATE"
       else if bySymbol.value.key.date != sell.key.date then "DATE_BOUNDARY_UNCERTAIN"
       else "CANDIDATE_QUERY_EMPTY", bySymbol)
    else if |before| > 1 then ("MULTIPLE_BUY_FILLS_AMBIGUOUS", picked)
    else if picked.value.source == "" then ("SOURCE_NOT_RECORDED", picked)
    else if !picked.value.hasScore then ("SCORE_NOT_RECORDED", picked)
    else ("PARTIAL_FILL_NEEDS_AGGREGATION", picked)
  }

  function BaseRow(inputs: Inputs, number: int, sell: Fill): Row {
    Row(number, sell, LastOf(BuysBefore(inputs, sell)), PickAt(inputs, sell.key), Unmatched, "")
  }

  /** The finished row: `partial` is what a duplicate looks like, `otherwise` the unmatched case. */
  function Settle(
    base: Row, partial: Option<bool>, isMatched: bool, otherwise: (string, Option<Candidate>)): Row
  {
    if partial.Some? then
      if partial.value
      then base.(status := PartialGrouped, reason := "PARTIAL_FILL_NEEDS_AGGREGATION")
      else base.(status := DuplicateSuspect, reason := "DUPLICATE_SELL_SUSPECT")
    else if isMatched then base.(status := Matched)
    else
      base.(
        reason := otherwise.0,
        candidate := if otherwise.1.Some? then otherwise.1 else base.candidate)
  }

  function DuplicateFlag(inputs: Inputs, sell: Fill): Option<bool> {
    if DuplicateOf(sell) in inputs.duplicates then Some(inputs.duplicates[DuplicateOf(sell)])
    else None
  }

  /** The finished row of a sell, given whether it is matched. */
  function RowFor(inputs: Inputs, number: int, sell: Fill, isMatched: bool): Row {
    Settle(
      BaseRow(inputs, number, sell), DuplicateFlag(inputs, sell), isMatched,
      UnmatchedReason(inputs, sell))
  }

  // ---- the loop -------------------------------------------------------------------

  method CandidateCapacity(rows: seq<Candidate>) returns (capacity: map<Key, int>)
    ensures forall key :: Left(capacity, key) == SumInt(Sold(key), rows)
  {
    capacity := map[];
    for i := 0 to |rows|
      invariant forall key :: Left(capacity, key) == SumInt(Sold(key), rows[..i])
    {
      assert rows[..i + 1] == rows[..i] + [rows[i]];
      forall key ensures SumInt(Sold(key), rows[..i + 1])
                         == SumInt(Sold(key), rows[..i]) + Sold(key)(rows[i]) {
        SumIntAppend(Sold(key), rows[..i], [rows[i]]);
      }
      capacity := capacity[rows[i].key := Left(capacity, rows[i].key) + rows[i].soldCount];
    }
    assert rows[..|rows|] == rows;
  }

  /** A missing count is zero. */
  function Left(capacity: map<Key, int>, key: Key): int {
    if key in capacity then capacity[key] else 0
  }

  /** What `n` claims leave of a capacity. */
  function Remaining(capacity: int, n: nat): int { capacity - Min(n, Max(capacity, 0)) }

  lemma RankStep(inputs: Inputs, sells: seq<Fill>, i: nat, key: Key)
    requires i < |sells|
    ensures Rank(inputs, sells, i + 1, key)
            == Rank(inputs, sells, i, key)
               + if sells[i].key == key && Claims(inputs, sells[i]) then 1 else 0
  {
    assert sells[..i + 1] == sells[..i] + [sells[i]];
    CountByAppend(ClaimsAt(inputs, key), sells[..i], [sells[i]]);
  }

  ghost predicate CapacityLeft(
    inputs: Inputs, sells: seq<Fill>, i: nat, capacity: map<Key, int>)
    requires i <= |sells|
  {
    forall key :: Left(capacity, key)
                  == Remaining(Capacity(inputs, key), Rank(inputs, sells, i, key))
  }

  lemma CapacityStep(
    inputs: Inputs, sells: seq<Fill>, i: nat, before: map<Key, int>, after: map<Key, int>)
    requires i < |sells| && CapacityLeft(inputs, sells, i, before)
    requires forall key :: Left(after, key)
                           == Left(before, key)
                              - if key == sells[i].key && IsMatched(inputs, sells, i) then 1 else 0
    ensures CapacityLeft(inputs, sells, i + 1, after)
  {
    forall key ensures Left(after, key)
                       == Remaining(Capacity(inputs, key), Rank(inputs, sells, i + 1, key)) {
      RankStep(inputs, sells, i, key);
    }
  }

  lemma MatchedWhenLeft(inputs: Inputs, sells: seq<Fill>, i: nat, capacity: map<Key, int>)
    requires i < |sells| && CapacityLeft(inputs, sells, i, capacity)
    ensures IsMatched(inputs, sells, i)
            <==> Claims(inputs, sells[i]) && Left(capacity, sells[i].key) > 0
  {
  }

  /** The row of one sell, and whether it takes one of the `left` places its key has. */
  method LedgerRow(inputs: Inputs, number: int, sell: Fill, left: int)
    returns (row: Row, matched: bool)
    ensures matched <==> Claims(inputs, sell) && left > 0
    ensures row == RowFor(inputs, number, sell, matched)
  {
    row, matched := BaseRow(inputs, number, sell), false;
    if DuplicateOf(sell) in inputs.duplicates {
      if inputs.duplicates[DuplicateOf(sell)] {
        row := row.(status := PartialGrouped, reason := "PARTIAL_FILL_NEEDS_AGGREGATION");
      } else {
        row := row.(status := DuplicateSuspect, reason := "DUPLICATE_SELL_SUSPECT");
      }
    } else if Creditable(inputs, sell.key) && left > 0 {
      matched := true;
      row := row.(status := Matched);
    } else {
      var (reason, fallback) := UnmatchedReason(inputs, sell);
      if fallback.Some? {
        row := row.(candidate := fallback);
      }
      row := row.(reason := reason);
    }
  }

  /** Row `i` is the row of sell `i`, for every sell so far. */
  ghost predicate Written(inputs: Inputs, sells: seq<Fill>, ledger: seq<Row>) {
    && |ledger| <= |sells|
    && forall i :: 0 <= i < |ledger| ==>
                     ledger[i] == RowFor(inputs, i + 1, sells[i], IsMatched(inputs, sells, i))
  }

  /** One place of a key is taken when its sell is matched. */
  function TakePlace(capacity: map<Key, int>, key: Key, matched: bool): map<Key, int> {
    if matched then capacity[key := Left(capacity, key) - 1] else capacity
  }

  lemma WrittenStep(inputs: Inputs, sells: seq<Fill>, ledger: seq<Row>, row: Row)
    requires Written(inputs, sells, ledger) && |ledger| < |sells|
    requires row == RowFor(
               inputs, |ledger| + 1, sells[|ledger|], IsMatched(inputs, sells, |ledger|))
    ensures Written(inputs, sells, ledger + [row])
  {
  }

  lemma TakePlaceStep(
    inputs: Inputs, sells: seq<Fill>, i: nat, capacity: map<Key, int>, matched: bool)
    requires i < |sells| && CapacityLeft(inputs, sells, i, capacity)
    requires matched == IsMatched(inputs, sells, i)
    ensures CapacityLeft(inputs, sells, i + 1, TakePlace(capacity, sells[i].key, matched))
  {
    CapacityStep(inputs, sells, i, capacity, TakePlace(capacity, sells[i].key, matched));
  }

  lemma LedgerStep(
    inputs: Inputs, sells: seq<Fill>, ledger: seq<Row>, capacity: map<Key, int>, row: Row,
    matched: bool)
    requires |ledger| < |sells| && Written(inputs, sells, ledger)
    requires CapacityLeft(inputs, sells, |ledger|, capacity)
    requires var sell := sells[|ledger|];
             && (matched <==> Claims(inputs, sell) && Left(capacity, sell.key) > 0)
             && row == RowFor(inputs, |ledger| + 1, sell, matched)
    ensures Written(inputs, sells, ledger + [row])
    ensures CapacityLeft(
              inputs, sells, |ledger| + 1, TakePlace(capacity, sells[|ledger|].key, matched))
  {
    MatchedWhenLeft(inputs, sells, |ledger|, capacity);
    TakePlaceStep(inputs, sells, |ledger|, capacity, matched);
    WrittenStep(inputs, sells, ledger, row);
  }

  method AddRow(inputs: Inputs, sells: seq<Fill>, before: seq<Row>, places: map<Key, int>)
    returns (ledger: seq<Row>, capacity: map<Key, int>)
    requires |before| < |sells| && Written(inputs, sells, before)
    requires CapacityLeft(inputs, sells, |before|, places)
    ensures |ledger| == |before| + 1 && Written(inputs, sells, ledger)
    ensures CapacityLeft(inputs, sells, |ledger|, capacity)
  {
    ledger, capacity := before, places;
    var sell := sells[|ledger|];
    var row, matched := LedgerRow(inputs, |ledger| + 1, sell, Left(capacity, sell.key));
    LedgerStep(inputs, sells, before, places, row, matched);
    if matched {
      capacity := capacity[sell.key := Left(capacity, sell.key) - 1];
    }
    ledger := ledger + [row];
  }

  /**
   * One row per sell in time order; a sell is matched exactly when fewer sells claimed its key's
   * capacity before it than there is, and each key's remaining capacity is what the claims leave.
   */
  method BuildMatchingLedger(inputs: Inputs)
    returns (ledger: seq<Row>, capacity: map<Key, int>)
    ensures |ledger| == |Sells(inputs)| && Written(inputs, Sells(inputs), ledger)
    ensures CapacityLeft(inputs, Sells(inputs), |Sells(inputs)|, capacity)
  {
    var sells := Sells(inputs);
    capacity := CandidateCapacity(inputs.candidates);
    ledger := [];
    CapacityAtStart(inputs, sells, capacity);
    for i := 0 to |sells|
      invariant |ledger| == i && Written(inputs, sells, ledger)
      invariant CapacityLeft(inputs, sells, i, capacity)
    {
      ledger, capacity := AddRow(inputs, sells, ledger, capacity);
    }
  }

  lemma CapacityAtStart(inputs: Inputs, sells: seq<Fill>, capacity: map<Key, int>)
    requires forall key :: Left(capacity, key) == Capacity(inputs, key)
    ensures CapacityLeft(inputs, sells, 0, capacity)
  {
  }

  // ---- what the ledger promises -------------------------------------------------------

  /** How many of the first `i` sells of a key are matched. */
  function MatchedCount(inputs: Inputs, sells: seq<Fill>, i: nat, key: Key): nat
    requires i <= |sells|
  {
    if i == 0 then 0
    else MatchedCount(inputs, sells, i - 1, key)
         + if sells[i - 1].key == key && IsMatched(inputs, sells, i - 1) then 1 else 0
  }

  /** Per key the sells matched are as many as the capacity allows and no more. */
  lemma {:induction false} MatchedIsCapped(inputs: Inputs, sells: seq<Fill>, i: nat, key: Key)
    requires i <= |sells|
    ensures MatchedCount(inputs, sells, i, key)
            == Min(Max(Capacity(inputs, key), 0), Rank(inputs, sells, i, key))
    ensures MatchedCount(inputs, sells, i, key)
            == Capacity(inputs, key)
               - Remaining(Capacity(inputs, key), Rank(inputs, sells, i, key))
  {
    if i > 0 {
      MatchedIsCapped(inputs, sells, i - 1, key);
      RankStep(inputs, sells, i - 1, key);
    } else {
      assert sells[..0] == [];
    }
  }

  function MatchedAt(key: Key): Row -> bool {
    (row: Row) => row.status == Matched && row.sell.key == key
  }

  /** The statuses in the ledger say which sells are matched. */
  ghost predicate Shows(inputs: Inputs, sells: seq<Fill>, ledger: seq<Row>) {
    && |ledger| <= |sells|
    && forall i :: 0 <= i < |ledger| ==>
                     ledger[i].sell == sells[i]
                     && (ledger[i].status == Matched <==> IsMatched(inputs, sells, i))
  }

  lemma WrittenShows(inputs: Inputs, sells: seq<Fill>, ledger: seq<Row>)
    requires Written(inputs, sells, ledger)
    ensures Shows(inputs, sells, ledger)
  {
  }

  lemma {:induction false} RowsShowMatches(
    inputs: Inputs, sells: seq<Fill>, ledger: seq<Row>, i: nat, key: Key)
    requires Shows(inputs, sells, ledger) && i <= |ledger|
    ensures CountBy(MatchedAt(key), ledger[..i]) == MatchedCount(inputs, sells, i, key)
  {
    if i > 0 {
      RowsShowMatches(inputs, sells, ledger, i - 1, key);
      assert ledger[..i] == ledger[..i - 1] + [ledger[i - 1]];
      CountByAppend(MatchedAt(key), ledger[..i - 1], [ledger[i - 1]]);
    }
  }

  /** The finished ledger matches, per key, the smaller of its capacity and the sells that claim it. */
  lemma LedgerCounts(inputs: Inputs, ledger: seq<Row>, key: Key)
    requires |ledger| == |Sells(inputs)| && Written(inputs, Sells(inputs), ledger)
    ensures CountBy(MatchedAt(key), ledger)
            == Min(Max(Capacity(inputs, key), 0), CountBy(ClaimsAt(inputs, key), Sells(inputs)))
  {
    var sells := Sells(inputs);
    WrittenShows(inputs, sells, ledger);
    RowsShowMatches(inputs, sells, ledger, |ledger|, key);
    MatchedIsCapped(inputs, sells, |ledger|, key);
    assert ledger[..|ledger|] == ledger && sells[..|sells|] == sells;
  }

  lemma {:induction false} RankGrows(inputs: Inputs, sells: seq<Fill>, i: nat, j: nat, key: Key)
    requires i <= j <= |sells|
    ensures Rank(inputs, sells, i, key) <= Rank(inputs, sells, j, key)
  {
    if i < j {
      RankGrows(inputs, sells, i, j - 1, key);
      RankStep(inputs, sells, j - 1, key);
    }
  }

  lemma WhenLeqTotal()
    ensures Total(Earlier)
  {
  }

  // ---- the clock and the trading session ----------------------------------------------

  const NOON := 43200
  const DAY := 86400

  /** Seconds into the session, which runs past midnight: hours before noon belong to its end. */
  function SessionSecond(f: Fill): int { if f.second < NOON then f.second + DAY else f.second }

  /**
   * Of two sells that claim the same capacity the later row is not matched before the earlier, and
   * the earlier row is the one with the earlier clock time.
   */
  lemma EarliestFirst(inputs: Inputs, i: nat, j: nat)
    requires i < j < |Sells(inputs)| && Sells(inputs)[i].key == Sells(inputs)[j].key
    requires Claims(inputs, Sells(inputs)[i]) && IsMatched(inputs, Sells(inputs), j)
    ensures IsMatched(inputs, Sells(inputs), i)
    ensures Sells(inputs)[i].second <= Sells(inputs)[j].second
    ensures (Sells(inputs)[i].second < NOON <==> Sells(inputs)[j].second < NOON) ==>
              SessionSecond(Sells(inputs)[i]) <= SessionSecond(Sells(inputs)[j])
  {
    WhenLeqTotal();
    SortSorts(Earlier, Filter(IsSell, inputs.fills));
    RankGrows(inputs, Sells(inputs), i, j, Sells(inputs)[i].key);
    assert Earlier(Sells(inputs)[i], Sells(inputs)[j]);
  }

  /**
   * For two fills of one date, with times of day, the ledger's order is the order of the session if
   * and only if both lie on the same side of noon.
   */
  lemma LedgerFollowsSessionIff(a: Fill, b: Fill)
    requires a.key.date == b.key.date && 0 <= a.second < DAY && 0 <= b.second < DAY
    ensures ((Earlier(a, b) <==> SessionSecond(a) <= SessionSecond(b))
             && (Earlier(b, a) <==> SessionSecond(b) <= SessionSecond(a)))
            <==> (a.second < NOON <==> b.second < NOON)
  {
  }

  /** A sell after midnight takes the one place of its key before a sell earlier in the session. */
  lemma AfterMidnightGoesFirst() returns (inputs: Inputs)
    ensures |Sells(inputs)| == 2 && Sells(inputs)[0].key == Sells(inputs)[1].key
    ensures SessionSecond(Sells(inputs)[1]) < SessionSecond(Sells(inputs)[0])
    ensures Claims(inputs, Sells(inputs)[1])
    ensures IsMatched(inputs, Sells(inputs), 0) && !IsMatched(inputs, Sells(inputs), 1)
  {
    var key := Key("2026-01-05", "A");
    var late := Fill(key, 600, Sell, "SELL", "2", "00:10:00", true);
    var early := Fill(key, 85200, Sell, "SELL", "1", "23:40:00", true);
    var candidate := Candidate(key, 1, true, "RANKING", true);
    inputs := Inputs([early, late], [candidate], [], map[]);
    assert [early, late][1..] == [late] && [late][1..] == [] && [candidate][1..] == [];
    assert Filter(IsSell, [late]) == [late] && Filter(IsSell, [early, late]) == [early, late];
    assert Sort(Earlier, [late]) == [late];
    assert Insert(Earlier, early, [late]) == [late, early];
    var sells := Sells(inputs);
    assert sells == [late, early];
    assert CandidatesAt(inputs, key) == [candidate] && EvaluationsAt(inputs, key) == [];
    assert SumInt(Sold(key), []) == 0;
    assert Capacity(inputs, key) == 1;
    assert sells[..0] == [] && Rank(inputs, sells, 0, key) == 0;
    assert !Blank("RANKING") by { assert !BlankChar("RANKING"[0]); }
    RankStep(inputs, sells, 0, key);
  }

  /** Every sell of the fills has its row: the rows' sells are the fills that are sells, reordered. */
  lemma EverySellOnce(inputs: Inputs)
    ensures multiset(Sells(inputs)) == multiset(Filter(IsSell, inputs.fills))
  {
    WhenLeqTotal();
    SortSorts(Earlier, Filter(IsSell, inputs.fills));
  }

  // ---- is the reported reason true? ----------------------------------------------------

  /** The key had capacity, and the sells before this one have used all of it. */
  ghost predicate UsedUp(inputs: Inputs, sells: seq<Fill>, i: nat)
    requires i < |sells|
  {
    && Capacity(inputs, sells[i].key) > 0
    && MatchedCount(inputs, sells, i, sells[i].key) == Capacity(inputs, sells[i].key)
  }

  /**
   * An unmatched sell that is told its candidate's capacity is used up is told the truth exactly
   * when the key has a candidate row with a positive count and a source that is not blank.
   */
  lemma UsedUpIsTrueIff(inputs: Inputs, sells: seq<Fill>, i: nat)
    requires i < |sells| && DuplicateOf(sells[i]) !in inputs.duplicates
    requires !IsMatched(inputs, sells, i)
    requires UnmatchedReason(inputs, sells[i]).0 == "PARTIAL_FILL_NEEDS_AGGREGATION"
    ensures UsedUp(inputs, sells, i)
            <==> Capacity(inputs, sells[i].key) > 0
                 && !Blank(PickAt(inputs, sells[i].key).value.source)
  {
    var key := sells[i].key;
    MatchedIsCapped(inputs, sells, i, key);
    assert RowCount(inputs, key) <= 1 && PickAt(inputs, key).Some?;
    assert PickAt(inputs, key).value.hasScore;
    if Blank(PickAt(inputs, key).value.source) {
      NothingClaimed(inputs, sells, i, key);
    }
  }

  lemma {:induction false} NothingClaimed(inputs: Inputs, sells: seq<Fill>, i: nat, key: Key)
    requires i <= |sells| && !Creditable(inputs, key)
    ensures Rank(inputs, sells, i, key) == 0
  {
    if i > 0 {
      NothingClaimed(inputs, sells, i - 1, key);
      RankStep(inputs, sells, i - 1, key);
    }
  }

  /** With only an eligible evaluation for its key, the first sell is told capacity is used up. */
  lemma ReasonCanMislead() returns (inputs: Inputs)
    ensures |Sells(inputs)| == 1 && !IsMatched(inputs, Sells(inputs), 0)
    ensures RowFor(inputs, 1, Sells(inputs)[0], false).reason == "PARTIAL_FILL_NEEDS_AGGREGATION"
    ensures !UsedUp(inputs, Sells(inputs), 0)
  {
    var key := Key("2026-01-05", "A");
    var buy := Fill(key, 0, Buy, "BUY", "1", "", true);
    var sell := Fill(key, 9, Sell, "SELL", "2", "", true);
    var evaluation := Candidate(key, 0, true, "RANKING", true);
    inputs := Inputs([buy, sell], [], [evaluation], map[]);
    assert [buy, sell][1..] == [sell] && [sell][1..] == [];
    assert Filter(IsSell, [sell]) == [sell];
    assert Filter(IsSell, [buy, sell]) == [sell];
    SortedStays(Earlier, [sell]);
    assert Sells(inputs) == [sell];
    assert Filter(BuyOf("A"), [sell]) == [];
    SortedStays(Earlier, [buy]);
    assert Buys(inputs, "A") == [buy];
    assert [buy][1..] == [];
    assert BuysBefore(inputs, sell) == [buy];
    assert [evaluation][1..] == [];
    assert EvaluationsAt(inputs, key) == [evaluation] && CandidatesAt(inputs, key) == [];
  }
}
