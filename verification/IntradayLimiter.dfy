/** Which buy intents of an intraday round may be sent, and why the others are not. */
module IntradayLimiter {
  import opened Common

  /** `ticker` is trimmed and upper-case; `reasons` is the entry reason split at its plus signs. */
  datatype Intent = Intent(ticker: string, quantity: int, limitPrice: real, reasons: seq<string>)

  datatype Diagnostic = Diagnostic(ticker: string, reason: Reason)

  datatype Reason = RoundLimit | CapReached | UnfilledOrder | PyramidingBlocked | AlreadySubmitted

  datatype Settings = Settings(maxRounds: int, cap: int, pyramiding: bool, minProfit: real)

  /** `held` gives the profit rate of each position. */
  datatype Round = Round(
    held: map<string, real>, submitted: set<string>, added: set<string>, unfilled: set<string>)

  datatype Outcome = Outcome(accepted: seq<Intent>, diagnostics: seq<Diagnostic>)

  function TickerOf(intent: Intent): string { intent.ticker }

  function DiagnosedTicker(d: Diagnostic): string { d.ticker }

  function Tickers(intents: seq<Intent>): set<string> {
    set i | 0 <= i < |intents| :: intents[i].ticker
  }

  predicate PyramidingAllowed(ticker: string, r: Round, s: Settings)
    requires ticker in r.held
  {
    s.pyramiding && r.held[ticker] >= s.minProfit && ticker !in r.added
  }

  /** Why an intent is refused after `accepted`, if it is. */
  function Refusal(ticker: string, accepted: seq<Intent>, r: Round, s: Settings): Option<Reason> {
    if |accepted| >= s.cap then Some(CapReached)
    else if ticker in r.unfilled then Some(UnfilledOrder)
    else if ticker in r.held then
      if PyramidingAllowed(ticker, r, s) then None else Some(PyramidingBlocked)
    else if ticker in r.submitted || ticker in Tickers(accepted) then Some(AlreadySubmitted)
    else None
  }

  function WithReason(intent: Intent, reason: string): Intent {
    if reason in intent.reasons then intent else intent.(reasons := intent.reasons + [reason])
  }

  function Accepted(intent: Intent, r: Round): Intent {
    WithReason(intent, if intent.ticker in r.held then "PYRAMIDING" else "INTRADAY_RECHECK")
  }

  function Add(o: Outcome, intent: Intent, r: Round, s: Settings): Outcome {
    var refusal := Refusal(intent.ticker, o.accepted, r, s);
    if refusal.Some?
    then o.(diagnostics := o.diagnostics + [Diagnostic(intent.ticker, refusal.value)])
    else o.(accepted := o.accepted + [Accepted(intent, r)])
  }

  function Limited(candidates: seq<Intent>, r: Round, s: Settings): Outcome {
    if candidates == [] then Outcome([], [])
    else
      Add(Limited(candidates[..|candidates| - 1], r, s), candidates[|candidates| - 1], r, s)
  }

  function RoundLimited(intent: Intent): Diagnostic { Diagnostic(intent.ticker, RoundLimit) }

  function Limit(candidates: seq<Intent>, rounds: int, r: Round, s: Settings): Outcome {
    if rounds >= s.maxRounds then Outcome([], Map(RoundLimited, candidates))
    else Limited(candidates, r, s)
  }

  method LimitedIntradayBuyIntents(candidates: seq<Intent>, rounds: int, r: Round, s: Settings)
    returns (accepted: seq<Intent>, diagnostics: seq<Diagnostic>)
    ensures Outcome(accepted, diagnostics) == Limit(candidates, rounds, r, s)
  {
    accepted, diagnostics := [], [];
    if rounds >= s.maxRounds {
      return [], Map(RoundLimited, candidates);
    }
    var submitted := r.submitted;
    for i := 0 to |candidates|
      invariant Outcome(accepted, diagnostics) == Limited(candidates[..i], r, s)
      invariant submitted == r.submitted + Tickers(accepted)
    {
      assert candidates[..i + 1][..i] == candidates[..i];
      var ticker := candidates[i].ticker;
      if |accepted| >= s.cap {
        diagnostics := diagnostics + [Diagnostic(ticker, CapReached)];
        continue;
      }
      if ticker in r.unfilled {
        diagnostics := diagnostics + [Diagnostic(ticker, UnfilledOrder)];
        continue;
      }
      var reason := "INTRADAY_RECHECK";
      if ticker in r.held {
        if !PyramidingAllowed(ticker, r, s) {
          diagnostics := diagnostics + [Diagnostic(ticker, PyramidingBlocked)];
          continue;
        }
        reason := "PYRAMIDING";
      } else if ticker in submitted {
        diagnostics := diagnostics + [Diagnostic(ticker, AlreadySubmitted)];
        continue;
      }
      TickersAppend(accepted, WithReason(candidates[i], reason));
      accepted := accepted + [WithReason(candidates[i], reason)];
      submitted := submitted + {ticker};
    }
    assert candidates[..|candidates|] == candidates;
  }

  lemma TickersAppend(intents: seq<Intent>, intent: Intent)
    ensures Tickers(intents + [intent]) == Tickers(intents) + {intent.ticker}
  {
    var joined := intents + [intent];
    forall t | t in Tickers(intents) + {intent.ticker} ensures t in Tickers(joined) {
      if t in Tickers(intents) {
        var i :| 0 <= i < |intents| && intents[i].ticker == t;
        assert joined[i].ticker == t;
      } else {
        assert joined[|intents|].ticker == t;
      }
    }
  }

  // ---- what a round keeps --------------------------------------------------------------

  /** Every candidate is either accepted or diagnosed, under its own ticker. */
  ghost predicate Conserved(candidates: seq<Intent>, o: Outcome) {
    && |o.accepted| + |o.diagnostics| == |candidates|
    && multiset(Map(TickerOf, o.accepted)) + multiset(Map(DiagnosedTicker, o.diagnostics))
       == multiset(Map(TickerOf, candidates))
  }

  lemma AddConserves(candidates: seq<Intent>, intent: Intent, o: Outcome, r: Round, s: Settings)
    requires Conserved(candidates, o)
    ensures Conserved(candidates + [intent], Add(o, intent, r, s))
  {
    MapAppend(TickerOf, candidates, intent);
    var refusal := Refusal(intent.ticker, o.accepted, r, s);
    if refusal.Some? {
      MapAppend(DiagnosedTicker, o.diagnostics, Diagnostic(intent.ticker, refusal.value));
    } else {
      MapAppend(TickerOf, o.accepted, Accepted(intent, r));
      assert Accepted(intent, r).ticker == intent.ticker;
    }
  }

  lemma {:induction false} LimitedConserves(candidates: seq<Intent>, r: Round, s: Settings)
    ensures Conserved(candidates, Limited(candidates, r, s))
  {
    if candidates != [] {
      var before, intent := candidates[..|candidates| - 1], candidates[|candidates| - 1];
      assert before + [intent] == candidates;
      assert Limited(candidates, r, s) == Add(Limited(before, r, s), intent, r, s);
      LimitedConserves(before, r, s);
      AddConserves(before, intent, Limited(before, r, s), r, s);
    }
  }

  lemma LimitConserves(candidates: seq<Intent>, rounds: int, r: Round, s: Settings)
    ensures Conserved(candidates, Limit(candidates, rounds, r, s))
  {
    LimitedConserves(candidates, r, s);
    if rounds >= s.maxRounds {
      assert Map(DiagnosedTicker, Map(RoundLimited, candidates)) == Map(TickerOf, candidates);
    }
  }

  /** What each accepted intent satisfies; tickers not held are new and come once. */
  ghost predicate Sound(accepted: seq<Intent>, r: Round, s: Settings) {
    && |accepted| <= Max(s.cap, 0)
    && (forall i :: 0 <= i < |accepted| ==>
          && accepted[i].ticker !in r.unfilled
          && (accepted[i].ticker in r.held ==> PyramidingAllowed(accepted[i].ticker, r, s))
          && (accepted[i].ticker !in r.held ==> accepted[i].ticker !in r.submitted))
    && forall i, j :: 0 <= i < j < |accepted| && accepted[i].ticker == accepted[j].ticker ==>
                        accepted[i].ticker in r.held
  }

  /** A reason given other than the caps is true whatever else was accepted. */
  ghost predicate Justified(d: Diagnostic, accepted: seq<Intent>, r: Round, s: Settings) {
    match d.reason
    case RoundLimit => false
    case CapReached => |accepted| >= s.cap
    case UnfilledOrder => d.ticker in r.unfilled
    case PyramidingBlocked => d.ticker in r.held && !PyramidingAllowed(d.ticker, r, s)
    case AlreadySubmitted =>
      d.ticker !in r.held && (d.ticker in r.submitted || d.ticker in Tickers(accepted))
  }

  ghost predicate AllJustified(o: Outcome, r: Round, s: Settings) {
    forall i :: 0 <= i < |o.diagnostics| ==> Justified(o.diagnostics[i], o.accepted, r, s)
  }

  lemma AddKeepsSound(o: Outcome, intent: Intent, r: Round, s: Settings)
    requires Sound(o.accepted, r, s)
    ensures Sound(Add(o, intent, r, s).accepted, r, s)
  {
  }

  lemma AddKeepsJustified(o: Outcome, intent: Intent, r: Round, s: Settings)
    requires AllJustified(o, r, s)
    ensures AllJustified(Add(o, intent, r, s), r, s)
  {
    TickersAppend(o.accepted, Accepted(intent, r));
    var after := Add(o, intent, r, s);
    forall i | 0 <= i < |o.diagnostics| ensures Justified(o.diagnostics[i], after.accepted, r, s) {
      assert Justified(o.diagnostics[i], o.accepted, r, s);
    }
  }

  /**
   * At most the cap is accepted, never with an unfilled order, held tickers only by pyramiding, and
   * tickers not held once and not again; every refusal states a true reason.
   */
  lemma {:induction false} LimitedIsSound(candidates: seq<Intent>, r: Round, s: Settings)
    ensures Sound(Limited(candidates, r, s).accepted, r, s)
    ensures AllJustified(Limited(candidates, r, s), r, s)
  {
    if candidates != [] {
      var before, intent := candidates[..|candidates| - 1], candidates[|candidates| - 1];
      LimitedIsSound(before, r, s);
      AddKeepsSound(Limited(before, r, s), intent, r, s);
      AddKeepsJustified(Limited(before, r, s), intent, r, s);
    }
  }

  // ---- held tickers can be accepted twice -------------------------------------------------

  ghost predicate AllDistinct(accepted: seq<Intent>) {
    forall i, j :: 0 <= i < j < |accepted| ==> accepted[i].ticker != accepted[j].ticker
  }

  /** Candidate `k` is acceptable but for the cap: it may be added to, or is new and comes first. */
  predicate Fits(candidates: seq<Intent>, k: nat, r: Round, s: Settings)
    requires k < |candidates|
  {
    var ticker := candidates[k].ticker;
    && ticker !in r.unfilled
    && if ticker in r.held then PyramidingAllowed(ticker, r, s)
       else ticker !in r.submitted && forall m :: 0 <= m < k ==> candidates[m].ticker != ticker
  }

  function FittingBefore(candidates: seq<Intent>, j: nat, r: Round, s: Settings): nat
    requires j <= |candidates|
  {
    if j == 0 then 0
    else FittingBefore(candidates, j - 1, r, s) + if Fits(candidates, j - 1, r, s) then 1 else 0
  }

  /** Candidate `j` repeats a held ticker that may be added to, while the round has room. */
  ghost predicate RepeatsHeld(candidates: seq<Intent>, i: nat, j: nat, r: Round, s: Settings) {
    && i < j < |candidates| && candidates[i].ticker == candidates[j].ticker
    && candidates[i].ticker in r.held && Fits(candidates, i, r, s)
    && FittingBefore(candidates, j, r, s) < s.cap
  }

  predicate IsNew(ticker: string, r: Round) {
    ticker !in r.held && ticker !in r.unfilled && ticker !in r.submitted
  }

  /** Up to the cap the new tickers accepted are the new tickers there were. */
  ghost predicate NewOnesTaken(candidates: seq<Intent>, j: nat, r: Round, s: Settings)
    requires j <= |candidates|
  {
    forall t :: IsNew(t, r) ==>
                  (t in Tickers(Limited(candidates[..j], r, s).accepted)
                   <==> exists m :: 0 <= m < j && candidates[m].ticker == t)
  }

  /** As many are accepted as fit, up to the cap. */
  lemma {:induction false} AcceptedIsFitting(candidates: seq<Intent>, j: nat, r: Round, s: Settings)
    requires j <= |candidates|
    ensures |Limited(candidates[..j], r, s).accepted|
            == Min(FittingBefore(candidates, j, r, s), Max(s.cap, 0))
    ensures FittingBefore(candidates, j, r, s) <= s.cap ==> NewOnesTaken(candidates, j, r, s)
  {
    if j > 0 {
      var k := j - 1;
      AcceptedIsFitting(candidates, k, r, s);
      LimitedStep(candidates, k, r, s);
      var o := Limited(candidates[..k], r, s);
      if FittingBefore(candidates, k, r, s) <= s.cap {
        TickersAppend(o.accepted, Accepted(candidates[k], r));
        NewOnesStep(candidates, k, r, s);
      }
    }
  }

  lemma NewOnesStep(candidates: seq<Intent>, k: nat, r: Round, s: Settings)
    requires k < |candidates| && NewOnesTaken(candidates, k, r, s)
    requires var o := Limited(candidates[..k], r, s);
             && |o.accepted| == Min(FittingBefore(candidates, k, r, s), Max(s.cap, 0))
             && FittingBefore(candidates, k, r, s) <= s.cap
             && Limited(candidates[..k + 1], r, s) == Add(o, candidates[k], r, s)
             && Tickers(o.accepted + [Accepted(candidates[k], r)])
                == Tickers(o.accepted) + {candidates[k].ticker}
    ensures var o := Limited(candidates[..k], r, s);
            |o.accepted| < s.cap ==>
              (Refusal(candidates[k].ticker, o.accepted, r, s).None? <==> Fits(candidates, k, r, s))
    ensures FittingBefore(candidates, k + 1, r, s) <= s.cap ==> NewOnesTaken(candidates, k + 1, r, s)
  {
    var o := Limited(candidates[..k], r, s);
    var ticker := candidates[k].ticker;
    if IsNew(ticker, r) {
      assert ticker in Tickers(o.accepted) <==> exists m :: 0 <= m < k && candidates[m].ticker == ticker;
    }
    if FittingBefore(candidates, k + 1, r, s) <= s.cap {
      forall t | IsNew(t, r)
        ensures t in Tickers(Limited(candidates[..k + 1], r, s).accepted)
                <==> exists m :: 0 <= m < k + 1 && candidates[m].ticker == t
      {
        assert (exists m :: 0 <= m < k + 1 && candidates[m].ticker == t)
               <==> t == ticker || exists m :: 0 <= m < k && candidates[m].ticker == t;
      }
    }
  }

  lemma {:induction false} AcceptedGrows(candidates: seq<Intent>, k: nat, r: Round, s: Settings)
    requires k <= |candidates|
    ensures Limited(candidates[..k], r, s).accepted <= Limited(candidates, r, s).accepted
  {
    if k < |candidates| {
      var before := candidates[..|candidates| - 1];
      assert before[..k] == candidates[..k];
      AcceptedGrows(before, k, r, s);
    } else {
      assert candidates[..k] == candidates;
    }
  }

  lemma LimitedStep(candidates: seq<Intent>, k: nat, r: Round, s: Settings)
    requires k < |candidates|
    ensures Limited(candidates[..k + 1], r, s)
            == Add(Limited(candidates[..k], r, s), candidates[k], r, s)
  {
    assert candidates[..k + 1][..k] == candidates[..k];
  }

  /** A candidate that is not refused stands where the accepted list ended before it. */
  lemma AcceptedAt(candidates: seq<Intent>, k: nat, r: Round, s: Settings)
    requires k < |candidates|
    requires Refusal(candidates[k].ticker, Limited(candidates[..k], r, s).accepted, r, s).None?
    ensures |Limited(candidates[..k], r, s).accepted| < |Limited(candidates, r, s).accepted|
    ensures Limited(candidates, r, s).accepted[|Limited(candidates[..k], r, s).accepted|].ticker
            == candidates[k].ticker
  {
    LimitedStep(candidates, k, r, s);
    var before := Limited(candidates[..k], r, s).accepted;
    var after := Limited(candidates[..k + 1], r, s).accepted;
    assert after == before + [Accepted(candidates[k], r)];
    AcceptedGrows(candidates, k + 1, r, s);
    assert Limited(candidates, r, s).accepted[|before|] == after[|before|];
  }

  lemma RepeatIsAcceptedTwice(candidates: seq<Intent>, i: nat, j: nat, r: Round, s: Settings)
    requires RepeatsHeld(candidates, i, j, r, s)
    ensures !AllDistinct(Limited(candidates, r, s).accepted)
  {
    AcceptedIsFitting(candidates, j, r, s);
    var front := candidates[..j];
    assert front[..i] == candidates[..i] && front[i] == candidates[i];
    AcceptedGrows(front, i, r, s);
    AcceptedAt(front, i, r, s);
    AcceptedAt(candidates, i, r, s);
    AcceptedAt(candidates, j, r, s);
  }

  lemma {:induction false} AcceptedComesFrom(
    candidates: seq<Intent>, k: nat, r: Round, s: Settings) returns (i: nat)
    requires k < |Limited(candidates, r, s).accepted|
    ensures i < |candidates| && candidates[i].ticker == Limited(candidates, r, s).accepted[k].ticker
    ensures |Limited(candidates[..i], r, s).accepted| == k < s.cap
    decreases |candidates|
  {
    var before, intent := candidates[..|candidates| - 1], candidates[|candidates| - 1];
    if k < |Limited(before, r, s).accepted| {
      i := AcceptedComesFrom(before, k, r, s);
      assert before[..i] == candidates[..i];
    } else {
      i := |candidates| - 1;
    }
  }

  /** The accepted tickers are distinct exactly when no such repeat is among the candidates. */
  lemma DistinctIffNoRepeat(candidates: seq<Intent>, r: Round, s: Settings)
    ensures AllDistinct(Limited(candidates, r, s).accepted)
            <==> !exists i: nat, j: nat :: RepeatsHeld(candidates, i, j, r, s)
  {
    var all := Limited(candidates, r, s).accepted;
    LimitedIsSound(candidates, r, s);
    if !AllDistinct(all) {
      var a, b :| 0 <= a < b < |all| && all[a].ticker == all[b].ticker;
      var i := AcceptedComesFrom(candidates, a, r, s);
      var j := AcceptedComesFrom(candidates, b, r, s);
      if j < i {
        assert candidates[..i][..j] == candidates[..j];
        AcceptedGrows(candidates[..i], j, r, s);
      }
      AcceptedIsFitting(candidates, j, r, s);
      assert RepeatsHeld(candidates, i, j, r, s);
    }
    if exists i: nat, j: nat :: RepeatsHeld(candidates, i, j, r, s) {
      var i: nat, j: nat :| RepeatsHeld(candidates, i, j, r, s);
      RepeatIsAcceptedTwice(candidates, i, j, r, s);
    }
  }

  lemma HeldTickerTwice() returns (candidates: seq<Intent>, r: Round, s: Settings)
    ensures !AllDistinct(Limited(candidates, r, s).accepted)
  {
    var intent := Intent("A", 1, 10.0, []);
    candidates := [intent, intent];
    r := Round(map["A" := 0.05], {}, {}, {});
    s := Settings(3, 5, true, 0.02);
    assert FittingBefore(candidates, 0, r, s) == 0;
    assert RepeatsHeld(candidates, 0, 1, r, s);
    DistinctIffNoRepeat(candidates, r, s);
  }
}
