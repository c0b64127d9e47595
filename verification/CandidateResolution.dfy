/** Which candidate evaluation led to a trade, and which other candidates can change the answer. */
module CandidateResolution {
  import opened Common
  import opened Sorting

  /** `buySeconds` is None when the row has no buy time. */
  datatype Row = Row(
    buySeconds: Option<int>, buyOrder: string, sellOrder: string, entryReason: string)

  datatype Candidate = Candidate(
    seconds: int, number: int, orderId: string, blocked: bool, submitted: bool, source: string)

  datatype Reason = ManyActive | NoActive

  datatype Method = ExplicitOrder | UniqueSubmitted | NearestBefore | SourceAssisted

  datatype Confidence = High | Medium | Low

  datatype Resolution = Resolved(candidate: Candidate, how: Method) | Unresolved(reason: Reason)

  function ConfidenceOf(how: Method): Confidence {
    match how
    case ExplicitOrder => High
    case UniqueSubmitted => High
    case NearestBefore => Medium
    case SourceAssisted => Low
  }

  predicate EarlierCandidate(a: Candidate, b: Candidate) {
    a.seconds < b.seconds || (a.seconds == b.seconds && a.number <= b.number)
  }

  predicate BeforeBuy(row: Row, c: Candidate) {
    row.buySeconds.Some? ==> c.seconds <= row.buySeconds.value
  }

  predicate IsActive(row: Row, c: Candidate) { BeforeBuy(row, c) && !c.blocked }

  function BeforeTest(row: Row): Candidate -> bool { (c: Candidate) => BeforeBuy(row, c) }

  function ActiveTest(row: Row): Candidate -> bool { (c: Candidate) => IsActive(row, c) }

  function ExplicitTest(row: Row): Candidate -> bool {
    (c: Candidate) =>
      IsActive(row, c) && c.orderId != "" && (c.orderId == row.buyOrder || c.orderId == row.sellOrder)
  }

  function SubmittedTest(row: Row): Candidate -> bool {
    (c: Candidate) => IsActive(row, c) && c.submitted
  }

  function SourceTest(row: Row): Candidate -> bool {
    (c: Candidate) => IsActive(row, c) && row.entryReason != "" && c.source == row.entryReason
  }

  function Decide(
    explicit: seq<Candidate>, submitted: seq<Candidate>, active: seq<Candidate>, before: nat,
    matching: seq<Candidate>): Resolution
  {
    if |explicit| == 1 then Resolved(explicit[0], ExplicitOrder)
    else if |explicit| > 1 then Unresolved(ManyActive)
    else if |submitted| == 1 then Resolved(submitted[0], UniqueSubmitted)
    else if |submitted| > 1 then Unresolved(ManyActive)
    else if |active| == 1 && before == 1 then Resolved(active[0], NearestBefore)
    else if |matching| == 1 then Resolved(matching[0], SourceAssisted)
    else if |active| > 1 then Unresolved(ManyActive)
    else Unresolved(NoActive)
  }

  function ResolveActiveCandidate(row: Row, candidates: seq<Candidate>): Resolution {
    var ordered := Sort(EarlierCandidate, candidates);
    Decide(
      Filter(ExplicitTest(row), ordered), Filter(SubmittedTest(row), ordered),
      Filter(ActiveTest(row), ordered), |Filter(BeforeTest(row), ordered)|,
      Filter(SourceTest(row), ordered))
  }

  // ---- what can change the answer ------------------------------------------------------

  lemma OrderTotal()
    ensures Total(EarlierCandidate)
  {
  }

  /** Sorting and adding candidates that fail a test leave the same candidates passing it. */
  lemma SamePassing(p: Candidate -> bool, base: seq<Candidate>, extra: seq<Candidate>)
    requires forall i :: 0 <= i < |extra| ==> !p(extra[i])
    ensures multiset(Filter(p, Sort(EarlierCandidate, base + extra)))
            == multiset(Filter(p, Sort(EarlierCandidate, base)))
    ensures |Filter(p, Sort(EarlierCandidate, base + extra))|
            == |Filter(p, Sort(EarlierCandidate, base))|
    ensures |Filter(p, Sort(EarlierCandidate, base))| == 1 ==>
              Filter(p, Sort(EarlierCandidate, base + extra))
              == Filter(p, Sort(EarlierCandidate, base))
  {
    OrderTotal();
    SortSorts(EarlierCandidate, base);
    SortSorts(EarlierCandidate, base + extra);
    FilterPermutation(p, Sort(EarlierCandidate, base), base);
    FilterPermutation(p, Sort(EarlierCandidate, base + extra), base + extra);
    FilterAppend(p, base, extra);
    FilterNone(p, extra);
    assert Filter(p, base) + [] == Filter(p, base);
    OneElement(
      Filter(p, Sort(EarlierCandidate, base)), Filter(p, Sort(EarlierCandidate, base + extra)));
  }

  lemma BeforeCount(row: Row, base: seq<Candidate>, extra: seq<Candidate>)
    ensures |Filter(BeforeTest(row), Sort(EarlierCandidate, base + extra))|
            == |Filter(BeforeTest(row), Sort(EarlierCandidate, base))|
               + |Filter(BeforeTest(row), extra)|
  {
    OrderTotal();
    var p := BeforeTest(row);
    SortSorts(EarlierCandidate, base);
    SortSorts(EarlierCandidate, base + extra);
    FilterPermutation(p, Sort(EarlierCandidate, base), base);
    FilterPermutation(p, Sort(EarlierCandidate, base + extra), base + extra);
    FilterAppend(p, base, extra);
    OneElement(Filter(p, Sort(EarlierCandidate, base)), Filter(p, base));
    OneElement(Filter(p, Sort(EarlierCandidate, base + extra)), Filter(p, base) + Filter(p, extra));
  }

  lemma {:induction false} StricterPassesFewer(
    p: Candidate -> bool, q: Candidate -> bool, s: seq<Candidate>)
    requires forall c :: p(c) ==> q(c)
    ensures |Filter(p, s)| <= |Filter(q, s)|
    ensures |Filter(q, s)| == 1 ==> Filter(p, s) == if p(Filter(q, s)[0]) then Filter(q, s) else []
  {
    if s != [] {
      StricterPassesFewer(p, q, s[1..]);
    }
  }

  /** The lists pass the same candidates, as far as the decision looks at them. */
  ghost predicate SameList(a: seq<Candidate>, b: seq<Candidate>) {
    |a| == |b| && (|a| == 1 ==> a == b)
  }

  lemma MoreBefore(
    e: seq<Candidate>, e': seq<Candidate>, s: seq<Candidate>, s': seq<Candidate>,
    a: seq<Candidate>, a': seq<Candidate>, b: nat, b': nat, m: seq<Candidate>, m': seq<Candidate>)
    requires SameList(e, e') && SameList(s, s') && SameList(a, a') && SameList(m, m')
    requires |a| <= b <= b'
    ensures var was := Decide(e, s, a, b, m);
            Decide(e', s', a', b', m') == was
            <==> !(was.Resolved? && ConfidenceOf(was.how) == Medium && b < b')
  {
  }

  /**
   * Candidates that are blocked or come after the buy change no answer but a medium one, and that
   * one exactly when some of them come before the buy.
   */
  lemma ExtraCandidatesChangeOnlyMedium(row: Row, base: seq<Candidate>, extra: seq<Candidate>)
    requires forall i :: 0 <= i < |extra| ==> extra[i].blocked || !BeforeBuy(row, extra[i])
    ensures var was := ResolveActiveCandidate(row, base);
            ResolveActiveCandidate(row, base + extra) == was
            <==> !(was.Resolved? && ConfidenceOf(was.how) == Medium
                   && exists i :: 0 <= i < |extra| && BeforeBuy(row, extra[i]))
  {
    SamePassing(ExplicitTest(row), base, extra);
    SamePassing(SubmittedTest(row), base, extra);
    SamePassing(ActiveTest(row), base, extra);
    SamePassing(SourceTest(row), base, extra);
    BeforeCount(row, base, extra);
    SomeBefore(row, extra);
    var was, now := Sort(EarlierCandidate, base), Sort(EarlierCandidate, base + extra);
    StricterPassesFewer(ActiveTest(row), BeforeTest(row), was);
    MoreBefore(
      Filter(ExplicitTest(row), was), Filter(ExplicitTest(row), now),
      Filter(SubmittedTest(row), was), Filter(SubmittedTest(row), now),
      Filter(ActiveTest(row), was), Filter(ActiveTest(row), now),
      |Filter(BeforeTest(row), was)|, |Filter(BeforeTest(row), now)|,
      Filter(SourceTest(row), was), Filter(SourceTest(row), now));
  }

  lemma SomeBefore(row: Row, extra: seq<Candidate>)
    ensures |Filter(BeforeTest(row), extra)| > 0
            <==> exists i :: 0 <= i < |extra| && BeforeBuy(row, extra[i])
  {
  }

  /** The order the candidates come in does not matter. */
  lemma ResolutionIgnoresOrder(row: Row, a: seq<Candidate>, b: seq<Candidate>)
    requires multiset(a) == multiset(b)
    ensures ResolveActiveCandidate(row, a) == ResolveActiveCandidate(row, b)
  {
    SameUnder(ExplicitTest(row), a, b);
    SameUnder(SubmittedTest(row), a, b);
    SameUnder(ActiveTest(row), a, b);
    SameUnder(SourceTest(row), a, b);
    SameUnder(BeforeTest(row), a, b);
  }

  lemma SameUnder(p: Candidate -> bool, a: seq<Candidate>, b: seq<Candidate>)
    requires multiset(a) == multiset(b)
    ensures |Filter(p, Sort(EarlierCandidate, a))| == |Filter(p, Sort(EarlierCandidate, b))|
    ensures |Filter(p, Sort(EarlierCandidate, a))| == 1 ==>
              Filter(p, Sort(EarlierCandidate, a)) == Filter(p, Sort(EarlierCandidate, b))
  {
    OrderTotal();
    SortSorts(EarlierCandidate, a);
    SortSorts(EarlierCandidate, b);
    FilterPermutation(p, Sort(EarlierCandidate, a), Sort(EarlierCandidate, b));
    OneElement(Filter(p, Sort(EarlierCandidate, a)), Filter(p, Sort(EarlierCandidate, b)));
  }

  // ---- is "no active candidate" true? -----------------------------------------------------

  /**
   * The answer that there is no active candidate is also given for a lone active one: exactly when
   * nothing links it to the row and a blocked candidate precedes the buy beside it.
   */
  lemma LoneActiveIsLostIff(row: Row, candidates: seq<Candidate>, c: Candidate)
    requires Filter(ActiveTest(row), candidates) == [c]
    ensures ResolveActiveCandidate(row, candidates) == Unresolved(NoActive)
            <==> !ExplicitTest(row)(c) && !SubmittedTest(row)(c) && !SourceTest(row)(c)
                 && |Filter(BeforeTest(row), candidates)| > 1
    ensures ResolveActiveCandidate(row, candidates).Resolved? ==>
              ResolveActiveCandidate(row, candidates).candidate == c
  {
    var ordered := Sort(EarlierCandidate, candidates);
    OrderTotal();
    SortSorts(EarlierCandidate, candidates);
    FilterPermutation(ActiveTest(row), ordered, candidates);
    FilterPermutation(BeforeTest(row), ordered, candidates);
    OneElement(Filter(ActiveTest(row), candidates), Filter(ActiveTest(row), ordered));
    OneElement(Filter(BeforeTest(row), candidates), Filter(BeforeTest(row), ordered));
    StricterPassesFewer(ExplicitTest(row), ActiveTest(row), ordered);
    StricterPassesFewer(SubmittedTest(row), ActiveTest(row), ordered);
    StricterPassesFewer(SourceTest(row), ActiveTest(row), ordered);
    StricterPassesFewer(ActiveTest(row), BeforeTest(row), ordered);
  }

  /** One active candidate that nothing links to the row, and a blocked one, both before the buy. */
  lemma LoneActiveIsLost() returns (row: Row, candidates: seq<Candidate>)
    ensures candidates != [] && IsActive(row, candidates[0])
    ensures ResolveActiveCandidate(row, candidates) == Unresolved(NoActive)
  {
    row := Row(Some(100), "7", "8", "RANKING");
    var c := Candidate(10, 1, "", false, false, "MANUAL");
    var blocked := Candidate(20, 2, "", true, false, "RANKING");
    candidates := [c, blocked];
    assert candidates[1..] == [blocked] && [blocked][1..] == [];
    assert Filter(ActiveTest(row), [blocked]) == [];
    assert Filter(BeforeTest(row), [blocked]) == [blocked];
    LoneActiveIsLostIff(row, candidates, c);
  }
}
