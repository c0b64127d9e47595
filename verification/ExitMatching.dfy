/** Attaches an exit reason to each normalized sell: by order number, then nearest time, then alone. */
module ExitMatching {
  import opened Common
  import opened FillReader
  import opened Sorting
  import opened SourceOrder

  const DAY_SECONDS := 86400

  /** Seconds since midnight. */
  type Seconds = s: int | 0 <= s < DAY_SECONDS

  datatype Trade = Trade(
    createdAt: string, sourceNumber: Option<int>, sourceId: string, raw: string,
    tradeDate: string, isMock: Option<bool>, ticker: string, side: Side, orderNo: string,
    exitReason: string, seconds: Option<Seconds>)

  datatype ExitMatch = ExitMatch(
    exitReason: string, how: string, distance: Option<int>, ambiguous: bool)

  /** A normalized row with its exit. */
  datatype ReviewRow = ReviewRow(row: Normalized, exit: ExitMatch)

  datatype Choice = Choice(
    chosen: Option<Trade>, how: string, distance: Option<int>, ambiguous: bool)

  // ---- circular time ---------------------------------------------------------

  /** Distance around the clock. */
  function Circular(a: Seconds, b: Seconds): int {
    var direct := Abs(a - b);
    Min(direct, DAY_SECONDS - direct)
  }

  function Distance(a: Option<Seconds>, b: Option<Seconds>): Option<int> {
    if a.None? || b.None? then None else Some(Circular(a.value, b.value))
  }

  /** The distance is a metric, and nothing is further than half a day. */
  lemma CircularIsMetric(a: Seconds, b: Seconds, c: Seconds)
    ensures 0 <= Circular(a, b) <= 43200
    ensures Circular(a, b) == 0 <==> a == b
    ensures Circular(a, b) == Circular(b, a)
    ensures Circular(a, c) <= Circular(a, b) + Circular(b, c)
  {
  }

  /** It is the length of the shorter way round: the least number of one-second steps. */
  lemma CircularIsShortestWay(a: Seconds, b: Seconds, steps: int)
    requires (a + steps) % DAY_SECONDS == b
    ensures Abs(steps) >= Circular(a, b)
    ensures (a + Circular(a, b)) % DAY_SECONDS == b || (a - Circular(a, b)) % DAY_SECONDS == b
  {
  }

  // ---- choosing among candidates ---------------------------------------------

  function Timed(fill: Option<Seconds>): Trade -> bool {
    (t: Trade) => Distance(fill, t.seconds).Some?
  }

  function AtDistance(fill: Option<Seconds>, d: int): Trade -> bool {
    (t: Trade) => Distance(fill, t.seconds) == Some(d)
  }

  function Smallest(fill: Option<Seconds>, timed: seq<Trade>): int
    requires timed != [] && forall t :: t in timed ==> Distance(fill, t.seconds).Some?
  {
    var head := Distance(fill, timed[0].seconds).value;
    if |timed| == 1 then head else Min(head, Smallest(fill, timed[1..]))
  }

  function Choose(candidates: seq<Trade>, fill: Option<Seconds>, via: string): Choice {
    if candidates == [] then Choice(None, "", None, false)
    else if |candidates| == 1 then
      Choice(Some(candidates[0]), via, Distance(fill, candidates[0].seconds), false)
    else
      var timed := Filter(Timed(fill), candidates);
      if timed == [] then Choice(None, via + "_AMBIGUOUS", None, true)
      else
        var least := Smallest(fill, timed);
        var closest := Filter(AtDistance(fill, least), timed);
        if |closest| == 1 then
          Choice(Some(closest[0]), if via == "TIME_NEAREST" then via else via + "_TIME_NEAREST",
            Some(least), false)
        else Choice(None, via + "_TIME_AMBIGUOUS", Some(least), true)
  }

  /** The sells of trade history that could have closed the row. */
  function SameDaySell(row: Normalized): Trade -> bool {
    (t: Trade) => t.tradeDate == row.tradeDate && t.ticker == row.ticker && t.side.Sell?
                  && t.isMock == row.isMock
  }

  function SameOrder(row: Normalized): Trade -> bool {
    (t: Trade) => row.orderNo != "" && t.orderNo == row.orderNo
  }

  predicate HasTime(t: Trade) { t.seconds.Some? }

  /** The three stages; a later one is tried only when the earlier found nothing at all. */
  function Stages(row: Normalized, base: seq<Trade>, fill: Option<Seconds>): Choice {
    var byOrder := Choose(Filter(SameOrder(row), base), fill, "ORDER_NO");
    if byOrder.chosen.Some? || byOrder.ambiguous then byOrder
    else
      var byTime := Choose(Filter(HasTime, base), fill, "TIME_NEAREST");
      if byTime.chosen.Some? || byTime.ambiguous then byTime
      else if |base| == 1 then
        Choice(Some(base[0]), "FALLBACK_SINGLE", Distance(fill, base[0].seconds), false)
      else if |base| > 1 then Choice(None, "FALLBACK_AMBIGUOUS", None, true)
      else byTime
  }

  function Resolved(choice: Choice): ExitMatch {
    if choice.ambiguous then
      ExitMatch("AMBIGUOUS", if choice.how != "" then choice.how else "AMBIGUOUS",
        choice.distance, true)
    else if choice.chosen.None? then ExitMatch("UNKNOWN", "NO_MATCH", None, false)
    else
      var reason := choice.chosen.value.exitReason;
      ExitMatch(if reason != "" then reason else "UNKNOWN", choice.how, choice.distance, false)
  }

  /** `clock` reads a fill time text as seconds of the day. */
  function MatchExit(row: Normalized, trades: seq<Trade>, clock: string -> Option<Seconds>)
    : ExitMatch
  {
    if !row.side.Sell? then ExitMatch("", "NOT_APPLICABLE", None, false)
    else Resolved(Stages(row, Filter(SameDaySell(row), trades), clock(row.fillTime)))
  }

  function SortKeyOf(t: Trade): SortKey {
    SortKey(t.createdAt, t.sourceNumber, t.sourceId, t.raw)
  }

  predicate TradeLeq(a: Trade, b: Trade) { KeyLeq(SortKeyOf(a), SortKeyOf(b)) }

  lemma TradeOrderTotal()
    ensures Total(TradeLeq)
  {
    forall a, b ensures TradeLeq(a, b) || TradeLeq(b, a) {
      KeyLeqTotal(SortKeyOf(a), SortKeyOf(b));
    }
    forall a, b, c | TradeLeq(a, b) && TradeLeq(b, c) ensures TradeLeq(a, c) {
      KeyLeqTransitive(SortKeyOf(a), SortKeyOf(b), SortKeyOf(c));
    }
  }

  /** Every row stays in its place and carries its exit. */
  ghost predicate IsMatched(
    matched: seq<ReviewRow>, rows: seq<Normalized>, trades: seq<Trade>,
    clock: string -> Option<Seconds>)
  {
    && |matched| == |rows|
    && forall i :: 0 <= i < |rows| ==>
                     && matched[i].row == rows[i]
                     && matched[i].exit == MatchExit(rows[i], trades, clock)
  }

  method MatchExitReasons(
    rows: seq<Normalized>, trades: seq<Trade>, clock: string -> Option<Seconds>)
    returns (matched: seq<ReviewRow>)
    ensures IsMatched(matched, rows, trades, clock)
  {
    var prepared := Sort(TradeLeq, trades);
    TradeOrderTotal();
    SortSorts(TradeLeq, trades);
    matched := [];
    for n := 0 to |rows|
      invariant |matched| == n
      invariant forall i :: 0 <= i < n ==>
                  && matched[i].row == rows[i]
                  && matched[i].exit == MatchExit(rows[i], trades, clock)
    {
      var row := rows[n];
      MatchingIgnoresTradeOrder(row, prepared, trades, clock);
      if !row.side.Sell? {
        matched := matched + [ReviewRow(row, ExitMatch("", "NOT_APPLICABLE", None, false))];
        continue;
      }
      var choice := TryStages(row, Filter(SameDaySell(row), prepared), clock(row.fillTime));
      matched := matched + [ReviewRow(row, Resolved(choice))];
    }
  }

  method TryStages(row: Normalized, base: seq<Trade>, fill: Option<Seconds>)
    returns (choice: Choice)
    ensures choice == Stages(row, base, fill)
  {
    choice := Choose(Filter(SameOrder(row), base), fill, "ORDER_NO");
    if choice.chosen.None? && !choice.ambiguous {
      choice := Choose(Filter(HasTime, base), fill, "TIME_NEAREST");
    }
    if choice.chosen.None? && !choice.ambiguous {
      if |base| == 1 {
        choice := Choice(Some(base[0]), "FALLBACK_SINGLE", Distance(fill, base[0].seconds), false);
      } else if |base| > 1 {
        choice := choice.(how := "FALLBACK_AMBIGUOUS", ambiguous := true);
      }
    }
  }

  // ---- what the stages give --------------------------------------------------

  lemma ChooseGives(candidates: seq<Trade>, fill: Option<Seconds>, via: string)
    ensures var c := Choose(candidates, fill, via);
            && (c.chosen.Some? ==> c.chosen.value in candidates && !c.ambiguous)
            && (c.chosen.None? && !c.ambiguous <==> candidates == [])
            && (|candidates| == 1 ==> c.chosen == Some(candidates[0]))
  {
    if |candidates| > 1 {
      var timed := Filter(Timed(fill), candidates);
      if timed != [] {
        var closest := Filter(AtDistance(fill, Smallest(fill, timed)), timed);
        assert |closest| == 1 ==> closest[0] in closest;
      }
    }
  }

  /**
   * The outcome is a trade of the base, an ambiguity, or nothing, and nothing only for an empty
   * base. Trades with the row's order number come before all others, and then trades with a time:
   * where there are any, the outcome is one of them or an ambiguity, and a lone one is taken.
   */
  lemma StagesPrefer(row: Normalized, base: seq<Trade>, fill: Option<Seconds>)
    ensures var c := Stages(row, base, fill);
            && (c.chosen.Some? ==> c.chosen.value in base && !c.ambiguous)
            && (c.chosen.None? && !c.ambiguous <==> base == [])
    ensures var c, same := Stages(row, base, fill), Filter(SameOrder(row), base);
            same != [] ==>
              && (c.ambiguous || (c.chosen.Some? && SameOrder(row)(c.chosen.value)))
              && (|same| == 1 ==> c.chosen == Some(same[0]))
    ensures var c, timed := Stages(row, base, fill), Filter(HasTime, base);
            Filter(SameOrder(row), base) == [] && timed != [] ==>
              && (c.ambiguous || (c.chosen.Some? && HasTime(c.chosen.value)))
              && (|timed| == 1 ==> c.chosen == Some(timed[0]))
  {
    ChooseGives(Filter(SameOrder(row), base), fill, "ORDER_NO");
    ChooseGives(Filter(HasTime, base), fill, "TIME_NEAREST");
  }

  // ---- order independence ----------------------------------------------------

  lemma {:induction false} SmallestIsLeast(fill: Option<Seconds>, timed: seq<Trade>)
    requires timed != [] && forall t :: t in timed ==> Distance(fill, t.seconds).Some?
    ensures forall t :: t in timed ==> Smallest(fill, timed) <= Distance(fill, t.seconds).value
    ensures exists t :: t in timed && Distance(fill, t.seconds) == Some(Smallest(fill, timed))
  {
    assert timed[0] in timed;
    if |timed| > 1 {
      SmallestIsLeast(fill, timed[1..]);
      assert timed == [timed[0]] + timed[1..];
    }
  }

  lemma SmallestPermutation(fill: Option<Seconds>, a: seq<Trade>, b: seq<Trade>)
    requires a != [] && b != [] && forall t :: t in a <==> t in b
    requires forall t :: t in a ==> Distance(fill, t.seconds).Some?
    ensures Smallest(fill, a) == Smallest(fill, b)
  {
    SmallestIsLeast(fill, a);
    SmallestIsLeast(fill, b);
  }

  lemma ChooseIgnoresOrder(a: seq<Trade>, b: seq<Trade>, fill: Option<Seconds>, via: string)
    requires multiset(a) == multiset(b)
    ensures Choose(a, fill, via) == Choose(b, fill, via)
  {
    OneElement(a, b);
    var left, right := Filter(Timed(fill), a), Filter(Timed(fill), b);
    FilterPermutation(Timed(fill), a, b);
    PermutationMembers(left, right);
    if |a| > 1 && left != [] {
      SmallestPermutation(fill, left, right);
      var at := AtDistance(fill, Smallest(fill, left));
      FilterPermutation(at, left, right);
      OneElement(Filter(at, left), Filter(at, right));
    }
  }

  /** The matched exit does not depend on the order of the trade rows. */
  lemma MatchingIgnoresTradeOrder(
    row: Normalized, a: seq<Trade>, b: seq<Trade>, clock: string -> Option<Seconds>)
    requires multiset(a) == multiset(b)
    ensures MatchExit(row, a, clock) == MatchExit(row, b, clock)
  {
    var left, right := Filter(SameDaySell(row), a), Filter(SameDaySell(row), b);
    var fill := clock(row.fillTime);
    FilterPermutation(SameDaySell(row), a, b);
    OneElement(left, right);
    FilterPermutation(SameOrder(row), left, right);
    ChooseIgnoresOrder(Filter(SameOrder(row), left), Filter(SameOrder(row), right), fill, "ORDER_NO");
    FilterPermutation(HasTime, left, right);
    ChooseIgnoresOrder(Filter(HasTime, left), Filter(HasTime, right), fill, "TIME_NEAREST");
  }

  // ---- the nearest is strictly nearest ----------------------------------------

  lemma {:induction false} OnlyOne<T(!new)>(p: T -> bool, s: seq<T>)
    requires |Filter(p, s)| == 1
    ensures exists i :: 0 <= i < |s| && s[i] == Filter(p, s)[0] && p(s[i])
              && forall j :: 0 <= j < |s| && j != i ==> !p(s[j])
  {
    if p(s[0]) {
      assert Filter(p, s[1..]) == [];
      forall j | 0 < j < |s| ensures !p(s[j]) {
        assert s[j] in s[1..];
      }
    } else {
      OnlyOne(p, s[1..]);
      var i :| 0 <= i < |s[1..]| && s[1..][i] == Filter(p, s[1..])[0] && p(s[1..][i])
               && forall j :: 0 <= j < |s[1..]| && j != i ==> !p(s[1..][j]);
      assert s[i + 1] == s[1..][i];
      forall j | 0 <= j < |s| && j != i + 1 ensures !p(s[j]) {
        if j > 0 { assert s[j] == s[1..][j - 1]; }
      }
    }
  }

  /** The candidate at `i` has a time, and every other timed candidate is strictly further away. */
  ghost predicate StrictlyNearest(candidates: seq<Trade>, fill: Option<Seconds>, i: int) {
    && 0 <= i < |candidates| && Distance(fill, candidates[i].seconds).Some?
    && forall j :: 0 <= j < |candidates| && j != i && Distance(fill, candidates[j].seconds).Some?
         ==> Distance(fill, candidates[i].seconds).value < Distance(fill, candidates[j].seconds).value
  }

  /** Among several candidates one is chosen if and only if it is strictly nearer than the others. */
  lemma ChosenIffStrictlyNearest(candidates: seq<Trade>, fill: Option<Seconds>, via: string)
    requires |candidates| > 1
    ensures var c := Choose(candidates, fill, via);
            && (c.chosen.Some? <==> exists i :: StrictlyNearest(candidates, fill, i))
            && (c.ambiguous <==> c.chosen.None?)
            && (forall i :: StrictlyNearest(candidates, fill, i) ==>
                  c.chosen == Some(candidates[i])
                  && c.distance == Distance(fill, candidates[i].seconds))
  {
    var timed := Filter(Timed(fill), candidates);
    if timed != [] {
      var least := Smallest(fill, timed);
      SmallestIsLeast(fill, timed);
      FilterTwice(AtDistance(fill, least), Timed(fill), AtDistance(fill, least), candidates);
      var closest := Filter(AtDistance(fill, least), candidates);
      if |closest| == 1 {
        OnlyOne(AtDistance(fill, least), candidates);
        var i :| 0 <= i < |candidates| && candidates[i] == closest[0]
                 && AtDistance(fill, least)(candidates[i])
                 && forall j :: 0 <= j < |candidates| && j != i ==>
                      !AtDistance(fill, least)(candidates[j]);
        NearestAt(candidates, fill, timed, i);
      }
      forall i | StrictlyNearest(candidates, fill, i)
        ensures |closest| == 1 && closest[0] == candidates[i]
        ensures Distance(fill, candidates[i].seconds) == Some(least)
      {
        NearestIsClosest(candidates, fill, timed, i);
      }
    } else {
      forall i | 0 <= i < |candidates| ensures !StrictlyNearest(candidates, fill, i) {
        assert candidates[i] in candidates && candidates[i] !in timed;
      }
    }
  }

  lemma NearestAt(candidates: seq<Trade>, fill: Option<Seconds>, timed: seq<Trade>, i: nat)
    requires timed == Filter(Timed(fill), candidates) && timed != [] && i < |candidates|
    requires Distance(fill, candidates[i].seconds) == Some(Smallest(fill, timed))
    requires forall j :: 0 <= j < |candidates| && j != i
               ==> Distance(fill, candidates[j].seconds) != Some(Smallest(fill, timed))
    ensures StrictlyNearest(candidates, fill, i)
  {
    SmallestIsLeast(fill, timed);
    forall j | 0 <= j < |candidates| && j != i && Distance(fill, candidates[j].seconds).Some?
      ensures Distance(fill, candidates[i].seconds).value
            < Distance(fill, candidates[j].seconds).value
    {
      assert candidates[j] in candidates && candidates[j] in timed;
    }
  }

  lemma NearestIsClosest(candidates: seq<Trade>, fill: Option<Seconds>, timed: seq<Trade>, i: int)
    requires timed == Filter(Timed(fill), candidates) && timed != []
    requires StrictlyNearest(candidates, fill, i)
    ensures Distance(fill, candidates[i].seconds) == Some(Smallest(fill, timed))
    ensures Filter(AtDistance(fill, Smallest(fill, timed)), candidates) == [candidates[i]]
  {
    SmallestIsLeast(fill, timed);
    assert candidates[i] in candidates && candidates[i] in timed;
    var least := Smallest(fill, timed);
    var t :| t in timed && Distance(fill, t.seconds) == Some(least);
    assert t in candidates;
    var k :| 0 <= k < |candidates| && candidates[k] == t;
    assert k == i;
    FilterOne(AtDistance(fill, least), candidates, i);
  }

  lemma {:induction false} FilterOne<T(!new)>(p: T -> bool, s: seq<T>, i: nat)
    requires i < |s| && p(s[i]) && forall j :: 0 <= j < |s| && j != i ==> !p(s[j])
    ensures Filter(p, s) == [s[i]]
  {
    if i == 0 {
      FilterNone(p, s[1..]);
    } else {
      FilterOne(p, s[1..], i - 1);
    }
  }
}
