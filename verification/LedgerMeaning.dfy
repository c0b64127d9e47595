/** What a ledger row says: its buy, its candidate and its reason, from the fills and the rows of its key. */
module LedgerMeaning {
  import opened Common
  import opened MatchingLedger
  import opened Sorting

  // ---- the order of the fills --------------------------------------------------

  lemma PairOrder(a: string, b: string)
    requires |a| == |b| == 2 && AllDigits(a) && AllDigits(b)
    ensures TwoDigits(a) < TwoDigits(b) <==> a[0] < b[0] || (a[0] == b[0] && a[1] < b[1])
    ensures TwoDigits(a) == TwoDigits(b) <==> a == b
  {
    assert IsDigit(a[0]) && IsDigit(a[1]) && IsDigit(b[0]) && IsDigit(b[1]);
    if a[0] == b[0] && a[1] == b[1] {
      assert a == [a[0], a[1]] && b == [b[0], b[1]];
    }
  }

  /** Texts of one length compare at the first place where they differ. */
  lemma SmallerAt(a: string, b: string, k: nat)
    requires |a| == |b| && k < |a| && a[..k] == b[..k] && a[k] != b[k]
    ensures TextLeq(a, b) <==> a[k] < b[k]
  {
    TextOrderStated(a, b);
    assert forall j: nat :: j < k ==> a[..k][j] == a[j] && b[..k][j] == b[j];
    assert forall j: nat :: k < j <= |a| ==> a[..j][k] == a[k] && b[..j][k] == b[k];
    assert a[k] < b[k] ==> SmallerFrom(a, b, k);
  }

  lemma DateDigits(d: string)
    requires IsFullDate(d)
    ensures AllDigits(d[5..7]) && AllDigits(d[8..])
  {
    var all := d[..4] + d[5..7] + d[8..];
    assert forall i :: 0 <= i < 2 ==> d[5..7][i] == all[4 + i];
    assert forall i :: 0 <= i < 2 ==> d[8..][i] == all[6 + i];
  }

  /** Fills of different days of a year are in the order of their date texts. */
  lemma DatesInOrder(a: Fill, b: Fill)
    requires IsFullDate(a.key.date) && IsFullDate(b.key.date) && a.key.date != b.key.date
    requires a.key.date[..4] == b.key.date[..4]
    ensures Earlier(a, b) <==> TextLeq(a.key.date, b.key.date)
  {
    var d, e := a.key.date, b.key.date;
    DateDigits(d);
    DateDigits(e);
    PairOrder(d[5..7], e[5..7]);
    PairOrder(d[8..], e[8..]);
    assert d == d[..4] + [d[4]] + d[5..7] + [d[7]] + d[8..];
    assert e == e[..4] + [e[4]] + e[5..7] + [e[7]] + e[8..];
    var k := if d[5] != e[5] then 5 else if d[6] != e[6] then 6 else if d[8] != e[8] then 8 else 9;
    assert d[..5] == d[..4] + [d[4]] && e[..5] == e[..4] + [e[4]];
    SamePrefix(d, e, 5, k);
    SmallerAt(d, e, k);
  }

  lemma SamePrefix(a: string, b: string, from: nat, k: nat)
    requires from <= k <= |a| == |b| && a[..from] == b[..from]
    requires forall i :: from <= i < k ==> a[i] == b[i]
    ensures a[..k] == b[..k]
  {
    forall i | 0 <= i < k ensures a[i] == b[i] {
      if i < from {
        assert a[..from][i] == b[..from][i];
      }
    }
  }

  // ---- the last of some rows ---------------------------------------------------

  /** The last element with a property, if there is one. */
  ghost predicate IsLast<T(!new)>(x: Option<T>, s: seq<T>, p: T -> bool) {
    if x.None? then forall y :: y in s ==> !p(y)
    else exists k :: 0 <= k < |s| && s[k] == x.value && p(s[k])
                     && forall j :: k < j < |s| ==> !p(s[j])
  }

  lemma {:induction false} LastStated<T(!new)>(p: T -> bool, s: seq<T>)
    ensures IsLast(LastOf(Filter(p, s)), s, p)
  {
    if s != [] {
      var front, last := s[..|s| - 1], s[|s| - 1];
      assert s == front + [last];
      FilterAppend(p, front, [last]);
      assert [last][1..] == [];
      LastStated(p, front);
      if p(last) {
        assert s[|s| - 1] == last;
      } else {
        assert Filter(p, s) == Filter(p, front);
        LastKept(LastOf(Filter(p, front)), front, last, p);
      }
    }
  }

  lemma LastKept<T(!new)>(x: Option<T>, front: seq<T>, last: T, p: T -> bool)
    requires IsLast(x, front, p) && !p(last)
    ensures IsLast(x, front + [last], p)
  {
    if x.Some? {
      var k :| 0 <= k < |front| && front[k] == x.value && p(front[k])
               && forall j :: k < j < |front| ==> !p(front[j]);
      assert (front + [last])[k] == x.value;
    }
  }

  lemma {:induction false} CountStated<T(!new)>(p: T -> bool, s: seq<T>)
    ensures |Filter(p, s)| == CountBy(p, s)
  {
    if s != [] {
      CountStated(p, s[1..]);
    }
  }

  // ---- a row -------------------------------------------------------------------

  /** A buy of the sell's symbol that is not after it. */
  function BuyBy(sell: Fill): Fill -> bool {
    (f: Fill) => f.side == Buy && f.key.symbol == sell.key.symbol && Earlier(f, sell)
  }

  function OnKey(key: Key): Candidate -> bool { (c: Candidate) => c.key == key }

  function EligibleOn(key: Key): Candidate -> bool {
    (c: Candidate) => c.eligible && c.key == key
  }

  function OfSymbol(symbol: string): Candidate -> bool {
    (c: Candidate) => c.key.symbol == symbol
  }

  /** The latest buy not after the sell. */
  ghost predicate IsLatestBuy(buy: Option<Fill>, inputs: Inputs, sell: Fill) {
    if buy.None? then forall f :: f in inputs.fills ==> !BuyBy(sell)(f)
    else
      && buy.value in inputs.fills && BuyBy(sell)(buy.value)
      && forall f :: f in inputs.fills && BuyBy(sell)(f) ==> Earlier(f, buy.value)
  }

  /** The last candidate row of the key, or else the last eligible evaluation of it. */
  ghost predicate IsPicked(c: Option<Candidate>, inputs: Inputs, key: Key) {
    if exists d :: d in inputs.candidates && d.key == key then IsLast(c, inputs.candidates, OnKey(key))
    else IsLast(c, inputs.evaluations, EligibleOn(key))
  }

  /** The key has more than one candidate row, or more than one eligible evaluation. */
  predicate Several(inputs: Inputs, key: Key) {
    CountBy(OnKey(key), inputs.candidates) > 1 || CountBy(EligibleOn(key), inputs.evaluations) > 1
  }

  ghost predicate NoBuyBy(inputs: Inputs, sell: Fill) {
    forall f :: f in inputs.fills ==> !BuyBy(sell)(f)
  }

  ghost predicate BuyAfter(inputs: Inputs, sell: Fill) {
    exists f :: f in inputs.fills && f.side == Buy && f.key.symbol == sell.key.symbol
                && !Earlier(f, sell)
  }

  /** What an unmatched sell is told. */
  ghost predicate IsReason(
    reason: string, inputs: Inputs, sell: Fill, picked: Option<Candidate>,
    bySymbol: Option<Candidate>)
  {
    reason ==
      if sell.key.symbol == "" then "MISSING_SYMBOL"
      else if sell.key.date == "" then "MISSING_TRADE_DATE"
      else if sell.orderNo == "" then "MISSING_SELL_ORDER_ID"
      else if !sell.hasId then "MISSING_SELL_FILL_ID"
      else if Several(inputs, sell.key) then "MULTIPLE_CANDIDATE_ROWS_AMBIGUOUS"
      else if NoBuyBy(inputs, sell) then
        if BuyAfter(inputs, sell) then "SELL_BEFORE_BUY_TIME" else "MISSING_BUY_LINK"
      else if picked.None? then
        if bySymbol.None? then "NO_CANDIDATE_ROW_FOR_SYMBOL_DATE"
        else if bySymbol.value.key.date != sell.key.date then "DATE_BOUNDARY_UNCERTAIN"
        else "CANDIDATE_QUERY_EMPTY"
      else if CountBy(BuyBy(sell), inputs.fills) > 1 then "MULTIPLE_BUY_FILLS_AMBIGUOUS"
      else if picked.value.source == "" then "SOURCE_NOT_RECORDED"
      else if !picked.value.hasScore then "SCORE_NOT_RECORDED"
      else "PARTIAL_FILL_NEEDS_AGGREGATION"
  }

  /** The symbol's last evaluation stands in when the sell has no buy or its key no row. */
  ghost predicate IsShown(
    shown: Option<Candidate>, inputs: Inputs, sell: Fill, picked: Option<Candidate>,
    bySymbol: Option<Candidate>)
  {
    var named := sell.key.symbol != "" && sell.key.date != "" && sell.orderNo != "" && sell.hasId;
    shown ==
      if named && !Several(inputs, sell.key) && (NoBuyBy(inputs, sell) || picked.None?)
         && bySymbol.Some? then bySymbol
      else picked
  }

  /** How a row ends: as a duplicate, matched with a creditable row of its key, or with a reason. */
  ghost predicate IsFinished(
    row: Row, inputs: Inputs, picked: Option<Candidate>, bySymbol: Option<Candidate>)
  {
    var sell := row.sell;
    var duplicate := DuplicateKey(sell.key, sell.sideText, sell.orderNo, sell.timeText);
    if duplicate in inputs.duplicates then
      && row.candidate == picked
      && (if inputs.duplicates[duplicate]
          then row.status.PartialGrouped? && row.reason == "PARTIAL_FILL_NEEDS_AGGREGATION"
          else row.status.DuplicateSuspect? && row.reason == "DUPLICATE_SELL_SUSPECT")
    else if row.status.Matched? then
      && row.candidate == picked && row.reason == "" && !Several(inputs, sell.key)
      && picked.Some? && picked.value.hasScore
      && exists i :: 0 <= i < |picked.value.source| && picked.value.source[i] !in " \t\n\r"
    else
      && row.status.Unmatched? && IsReason(row.reason, inputs, sell, picked, bySymbol)
      && IsShown(row.candidate, inputs, sell, picked, bySymbol)
  }

  lemma PickStated(inputs: Inputs, key: Key)
    ensures IsPicked(PickAt(inputs, key), inputs, key)
    ensures RowCount(inputs, key) > 1 <==> Several(inputs, key)
  {
    LastStated(OnKey(key), inputs.candidates);
    LastStated(EligibleOn(key), inputs.evaluations);
    CountStated(OnKey(key), inputs.candidates);
    CountStated(EligibleOn(key), inputs.evaluations);
    SameFilter(At(key), OnKey(key), inputs.candidates);
    SameFilter(EligibleAt(key), EligibleOn(key), inputs.evaluations);
    if CandidatesAt(inputs, key) != [] {
      assert CandidatesAt(inputs, key)[0] in CandidatesAt(inputs, key);
    }
  }

  lemma {:induction false} SameFilter<T(!new)>(p: T -> bool, q: T -> bool, s: seq<T>)
    requires forall x :: p(x) <==> q(x)
    ensures Filter(p, s) == Filter(q, s)
  {
    if s != [] {
      SameFilter(p, q, s[1..]);
    }
  }

  /** The buys before a sell: in time order, and as many as the fills hold. */
  lemma BuysStated(inputs: Inputs, sell: Fill)
    ensures IsLatestBuy(LastOf(BuysBefore(inputs, sell)), inputs, sell)
    ensures |BuysBefore(inputs, sell)| == CountBy(BuyBy(sell), inputs.fills)
    ensures BuysBefore(inputs, sell) == [] <==> forall f :: f in inputs.fills ==> !BuyBy(sell)(f)
    ensures forall f :: f in Buys(inputs, sell.key.symbol)
                   <==> f in inputs.fills && f.side == Buy && f.key.symbol == sell.key.symbol
  {
    var of := BuyOf(sell.key.symbol);
    var buys, before := Buys(inputs, sell.key.symbol), BuysBefore(inputs, sell);
    WhenLeqTotal();
    SortSorts(Earlier, Filter(of, inputs.fills));
    FilterPermutation(NotAfter(sell), buys, Filter(of, inputs.fills));
    FilterTwice(NotAfter(sell), of, BuyBy(sell), inputs.fills);
    PermutationMembers(before, Filter(BuyBy(sell), inputs.fills));
    CountStated(BuyBy(sell), inputs.fills);
    FilterKeepsSorted(NotAfter(sell), buys);
    if before != [] {
      LastIsLatest(before);
      assert before[|before| - 1] in before;
    } else {
      assert forall f :: f in inputs.fills && BuyBy(sell)(f) ==> f in before;
    }
  }

  lemma {:induction false} FilterKeepsSorted(p: Fill -> bool, s: seq<Fill>)
    requires Sorted(Earlier, s)
    ensures Sorted(Earlier, Filter(p, s))
  {
    if s != [] {
      var head, rest := s[0], s[1..];
      FilterKeepsSorted(p, rest);
      forall f | f in Filter(p, rest) ensures Earlier(head, f) {
        var i :| 0 <= i < |rest| && rest[i] == f;
        assert s[i + 1] == f;
      }
      InsertHead(Earlier, head, Filter(p, rest));
    }
  }

  lemma LastIsLatest(s: seq<Fill>)
    requires Sorted(Earlier, s) && s != []
    ensures forall f :: f in s ==> Earlier(f, s[|s| - 1])
  {
    WhenLeqTotal();
    forall f | f in s ensures Earlier(f, s[|s| - 1]) {
      var i :| 0 <= i < |s| && s[i] == f;
      assert i < |s| - 1 ==> Earlier(s[i], s[|s| - 1]);
    }
  }

  lemma BuyAfterStated(inputs: Inputs, sell: Fill)
    ensures (exists b :: b in Buys(inputs, sell.key.symbol) && !Earlier(b, sell))
       <==> BuyAfter(inputs, sell)
  {
    BuysStated(inputs, sell);
  }

  lemma ReasonStated(inputs: Inputs, sell: Fill)
    ensures var bySymbol := LastOf(Filter(ForSymbol(sell.key.symbol), inputs.evaluations));
            IsReason(
              UnmatchedReason(inputs, sell).0, inputs, sell, PickAt(inputs, sell.key), bySymbol)
  {
    PickStated(inputs, sell.key);
    BuysStated(inputs, sell);
    BuyAfterStated(inputs, sell);
  }

  lemma ShownStated(inputs: Inputs, sell: Fill)
    ensures var picked := PickAt(inputs, sell.key);
            var bySymbol := LastOf(Filter(ForSymbol(sell.key.symbol), inputs.evaluations));
            var fallback := UnmatchedReason(inputs, sell).1;
            IsShown(if fallback.Some? then fallback else picked, inputs, sell, picked, bySymbol)
  {
    PickStated(inputs, sell.key);
    BuysStated(inputs, sell);
  }

  lemma FinishedStated(inputs: Inputs, number: int, sell: Fill, isMatched: bool)
    requires isMatched ==> Claims(inputs, sell)
    ensures var bySymbol := LastOf(Filter(ForSymbol(sell.key.symbol), inputs.evaluations));
            IsFinished(
              RowFor(inputs, number, sell, isMatched), inputs, PickAt(inputs, sell.key), bySymbol)
  {
    if DuplicateOf(sell) !in inputs.duplicates {
      if isMatched {
        PickStated(inputs, sell.key);
      } else {
        ReasonStated(inputs, sell);
        ShownStated(inputs, sell);
      }
    }
  }

  /**
   * Every row of a finished ledger carries its sell, the latest buy before it, and is a duplicate,
   * matched or unmatched for the reason that its key's rows and the symbol's buys give.
   */
  lemma RowStated(inputs: Inputs, ledger: seq<Row>, i: nat)
    returns (picked: Option<Candidate>, bySymbol: Option<Candidate>)
    requires Written(inputs, Sells(inputs), ledger) && i < |ledger|
    ensures ledger[i].number == i + 1 && ledger[i].sell == Sells(inputs)[i]
    ensures IsLatestBuy(ledger[i].buy, inputs, ledger[i].sell)
    ensures IsPicked(picked, inputs, ledger[i].sell.key)
    ensures IsLast(bySymbol, inputs.evaluations, OfSymbol(ledger[i].sell.key.symbol))
    ensures IsFinished(ledger[i], inputs, picked, bySymbol)
  {
    var sell := Sells(inputs)[i];
    picked := PickAt(inputs, sell.key);
    bySymbol := LastOf(Filter(ForSymbol(sell.key.symbol), inputs.evaluations));
    LastStated(OfSymbol(sell.key.symbol), inputs.evaluations);
    SameFilter(ForSymbol(sell.key.symbol), OfSymbol(sell.key.symbol), inputs.evaluations);
    PickStated(inputs, sell.key);
    BuysStated(inputs, sell);
    FinishedStated(inputs, i + 1, sell, IsMatched(inputs, Sells(inputs), i));
  }
}
