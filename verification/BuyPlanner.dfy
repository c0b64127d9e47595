/** The breakout buy planner: one evaluation per score, orders under a running budget. */
module BuyPlanner {
  import opened Common
  import EntryTiming
  import opened OrderBudget

  datatype Score = Score(ticker: string, total: real)

  datatype Settings = Settings(
    timing: EntryTiming.Settings, breakoutK: real, minScore: real, limits: Limits)

  datatype Record = Record(
    ticker: string, finalScore: real, allowed: bool, reason: string, reasons: seq<string>)

  datatype Error = MissingInput | InvalidPrices | UnknownPolicy | ZeroPrice

  datatype Step = Raise(error: Error) | Skip(record: Record) | Buy(record: Record, intent: Intent)

  type Inputs = map<string, EntryTiming.Breakout>

  function Threshold(b: EntryTiming.Breakout, k: real): real {
    b.open + (b.previousHigh - b.previousLow) * k
  }

  /** None stands for the error raised on prices that make no sense. */
  function Triggered(b: EntryTiming.Breakout, k: real): Option<bool> {
    if b.open <= 0.0 || b.previousHigh <= 0.0 || b.previousLow <= 0.0 then None
    else if b.previousHigh < b.previousLow then None
    else Some(b.last >= Threshold(b, k))
  }

  function ScoreFraction(score: real, minScore: real): real {
    if score < minScore then 0.0 else if score < 70.0 then 0.05 else if score < 85.0 then 0.1 else 0.2
  }

  function Fraction(score: real, s: Settings): real {
    MinReal(ScoreFraction(score, s.minScore), s.limits.maxPosition)
  }

  function OrderValue(cash: real, equity: real, score: real, s: Settings): real {
    MinReal(cash, equity * Fraction(score, s))
  }

  function FinalScore(score: Score, evaluation: EntryTiming.Evaluation): real {
    MaxReal(0.0, score.total + evaluation.adjustment)
  }

  function Refusal(ticker: string, final: real, reason: string): Record {
    Record(ticker, final, false, reason, [reason])
  }

  /** The order for a score that reached the gate. */
  function PlaceOrder(
    ticker: string, final: real, price: real, equity: real, purse: Purse, s: Settings): Step
  {
    var order := OrderValue(purse.cash, equity, final, s);
    var gate := EntryGate(equity, purse.invested, order, s.limits);
    if price == 0.0 then Raise(ZeroPrice)
    else if gate.Refused? then Skip(Refusal(ticker, final, gate.reason))
    else if Shares(order, price) < 1 then Skip(Refusal(ticker, final, "ORDER_NOT_SUBMITTED"))
    else
      Buy(
        Record(ticker, final, true, "BUY_ALLOWED", []),
        IntentFor(ticker, order, price, Fraction(final, s)))
  }

  function FirstReason(reasons: seq<string>): string {
    if reasons == [] then "ORDER_NOT_SUBMITTED" else reasons[0]
  }

  /** What follows from a score's trigger and timing evaluation; None stands for their errors. */
  function Decide(
    score: Score, triggered: Option<bool>, evaluation: Option<EntryTiming.Evaluation>, last: real,
    equity: real, purse: Purse, s: Settings): Step
  {
    if triggered.None? then Raise(InvalidPrices)
    else if evaluation.None? then Raise(UnknownPolicy)
    else if !triggered.value then
      Skip(Refusal(score.ticker, score.total, "BREAKOUT_NOT_TRIGGERED"))
    else
      var final := FinalScore(score, evaluation.value);
      if !evaluation.value.allowed then
        Skip(Record(
          score.ticker, final, false, FirstReason(evaluation.value.hard), evaluation.value.hard))
      else if final < s.minScore then
        Skip(Refusal(score.ticker, final, "FINAL_SCORE_BELOW_THRESHOLD"))
      else PlaceOrder(score.ticker, final, last, equity, purse, s)
  }

  function TimingOf(b: EntryTiming.Breakout, s: Settings): Option<EntryTiming.Evaluation> {
    EntryTiming.Evaluate(b, Threshold(b, s.breakoutK), s.timing)
  }

  /** What one score leads to under the totals so far. */
  function Consider(score: Score, inputs: Inputs, equity: real, purse: Purse, s: Settings): Step {
    if score.ticker !in inputs then Raise(MissingInput)
    else
      var b := inputs[score.ticker];
      Decide(score, Triggered(b, s.breakoutK), TimingOf(b, s), b.last, equity, purse, s)
  }

  /** Where the run over some scores stands; it stops at the first error. */
  datatype Progress = Progress(purse: Purse, records: seq<Record>, error: Option<Error>)

  function Advance(p: Progress, step: Step): Progress {
    match step
    case Raise(error) => p.(error := Some(error))
    case Skip(record) => p.(records := p.records + [record])
    case Buy(record, intent) => p.(purse := Spend(p.purse, intent), records := p.records + [record])
  }

  function Plan(scores: seq<Score>, inputs: Inputs, account: Account, s: Settings): Progress {
    if scores == [] then Progress(Opening(account), [], None)
    else
      var p := Plan(scores[..|scores| - 1], inputs, account, s);
      if p.error.Some? then p
      else Advance(p, Consider(scores[|scores| - 1], inputs, account.equity, p.purse, s))
  }

  /** The intents so far play no part in the next step; only their totals do. */
  ghost predicate LeadsTo(
    score: Score, inputs: Inputs, equity: real, cash: real, invested: real, s: Settings, step: Step)
  {
    forall intents :: step == Consider(score, inputs, equity, Purse(cash, invested, intents), s)
  }

  method ConsiderScore(
    score: Score, inputs: Inputs, equity: real, cash: real, invested: real, s: Settings)
    returns (step: Step)
    ensures LeadsTo(score, inputs, equity, cash, invested, s, step)
  {
    if score.ticker !in inputs {
      return Raise(MissingInput);
    }
    var b := inputs[score.ticker];
    var triggered := Triggered(b, s.breakoutK);
    if triggered.None? {
      return Raise(InvalidPrices);
    }
    // The record of an untriggered score evaluates the timing too, so its error comes first.
    var evaluation := EntryTiming.EntryTimingEvaluation(b, Threshold(b, s.breakoutK), s.timing);
    if evaluation.None? {
      return Raise(UnknownPolicy);
    }
    if !triggered.value {
      return Skip(Refusal(score.ticker, score.total, "BREAKOUT_NOT_TRIGGERED"));
    }
    var final := FinalScore(score, evaluation.value);
    if !evaluation.value.allowed {
      var hard := evaluation.value.hard;
      return Skip(Record(score.ticker, final, false, FirstReason(hard), hard));
    }
    if final < s.minScore {
      return Skip(Refusal(score.ticker, final, "FINAL_SCORE_BELOW_THRESHOLD"));
    }
    var order := OrderValue(cash, equity, final, s);
    var gate := EntryGate(equity, invested, order, s.limits);
    if b.last == 0.0 {
      return Raise(ZeroPrice);
    }
    var quantity := Shares(order, b.last);
    if gate.Refused? || quantity < 1 {
      var reason := if gate.Refused? then gate.reason else "ORDER_NOT_SUBMITTED";
      return Skip(Refusal(score.ticker, final, reason));
    }
    var filled := Value(quantity, b.last);
    step := Buy(
      Record(score.ticker, final, true, "BUY_ALLOWED", []),
      Intent(score.ticker, quantity, b.last, filled, Fraction(final, s)));
  }

  method PlanBuyIntents(scores: seq<Score>, inputs: Inputs, account: Account, s: Settings)
    returns (intents: seq<Intent>, records: seq<Record>, error: Option<Error>)
    ensures Plan(scores, inputs, account, s).purse.intents == intents
    ensures Plan(scores, inputs, account, s).records == records
    ensures Plan(scores, inputs, account, s).error == error
  {
    intents, records, error := [], [], None;
    var invested, cash := account.invested, account.cash;
    for i := 0 to |scores|
      invariant Plan(scores[..i], inputs, account, s).purse == Purse(cash, invested, intents)
      invariant Plan(scores[..i], inputs, account, s).records == records
      invariant Plan(scores[..i], inputs, account, s).error.None?
      invariant error.None?
    {
      var step := ConsiderScore(scores[i], inputs, account.equity, cash, invested, s);
      PlanStep(scores, i, inputs, account, s, step);
      match step
      case Raise(e) =>
        ErrorStops(scores, i + 1, inputs, account, s);
        error := Some(e);
        return;
      case Skip(record) =>
        records := records + [record];
      case Buy(record, intent) =>
        records := records + [record];
        intents := intents + [intent];
        invested := invested + intent.value;
        cash := cash - intent.value;
    }
    assert scores[..|scores|] == scores;
  }

  lemma PlanStep(
    scores: seq<Score>, i: nat, inputs: Inputs, account: Account, s: Settings, step: Step)
    requires i < |scores| && Plan(scores[..i], inputs, account, s).error.None?
    requires var p := Plan(scores[..i], inputs, account, s);
             LeadsTo(scores[i], inputs, account.equity, p.purse.cash, p.purse.invested, s, step)
    ensures Plan(scores[..i + 1], inputs, account, s)
            == Advance(Plan(scores[..i], inputs, account, s), step)
  {
    assert scores[..i + 1][..i] == scores[..i];
    var p := Plan(scores[..i], inputs, account, s);
    assert p.purse == Purse(p.purse.cash, p.purse.invested, p.purse.intents);
  }

  lemma {:induction false} ErrorStops(
    scores: seq<Score>, k: nat, inputs: Inputs, account: Account, s: Settings)
    requires k <= |scores| && Plan(scores[..k], inputs, account, s).error.Some?
    ensures Plan(scores, inputs, account, s) == Plan(scores[..k], inputs, account, s)
  {
    if k < |scores| {
      var before := scores[..|scores| - 1];
      assert before[..k] == scores[..k];
      ErrorStops(before, k, inputs, account, s);
    } else {
      assert scores[..k] == scores;
    }
  }

  // ---- what every plan keeps -----------------------------------------------------

  lemma ConsiderKeepsBudget(
    score: Score, inputs: Inputs, account: Account, purse: Purse, s: Settings)
    requires WithinBudget(account, s.limits, purse)
    requires Consider(score, inputs, account.equity, purse, s).Buy?
    ensures WithinBudget(
              account, s.limits,
              Spend(purse, Consider(score, inputs, account.equity, purse, s).intent))
  {
    var step := Consider(score, inputs, account.equity, purse, s);
    var order := OrderValue(purse.cash, account.equity, step.record.finalScore, s);
    var price := inputs[score.ticker].last;
    GatedIntentIsSound(
      account, s.limits, purse.invested, score.ticker, order, price,
      Fraction(step.record.finalScore, s));
    SpendKeepsBudget(account, s.limits, purse, step.intent);
  }

  lemma AdvanceKeepsBudget(
    p: Progress, score: Score, inputs: Inputs, account: Account, s: Settings)
    requires WithinBudget(account, s.limits, p.purse)
    ensures WithinBudget(
              account, s.limits,
              Advance(p, Consider(score, inputs, account.equity, p.purse, s)).purse)
  {
    if Consider(score, inputs, account.equity, p.purse, s).Buy? {
      ConsiderKeepsBudget(score, inputs, account, p.purse, s);
    }
  }

  /**
   * After any list of scores: cash and holdings add up to what they were, cash is never overdrawn,
   * the exposure limit is not passed, and each order is whole shares within the position limit.
   */
  lemma {:induction false} PlanKeepsBudget(
    scores: seq<Score>, inputs: Inputs, account: Account, s: Settings)
    ensures WithinBudget(account, s.limits, Plan(scores, inputs, account, s).purse)
    ensures SumBy(ValueOf, Plan(scores, inputs, account, s).purse.intents)
            <= MaxReal(0.0, account.cash)
  {
    if scores != [] {
      PlanKeepsBudget(scores[..|scores| - 1], inputs, account, s);
      AdvanceKeepsBudget(
        Plan(scores[..|scores| - 1], inputs, account, s), scores[|scores| - 1], inputs, account, s);
    }
    OrdersWithinCash(account, s.limits, Plan(scores, inputs, account, s).purse);
  }

  predicate IsAllowed(record: Record) { record.allowed }

  function RecordTicker(record: Record): string { record.ticker }

  function IntentTicker(intent: Intent): string { intent.ticker }

  ghost predicate Matched(scores: seq<Score>, p: Progress) {
    && (forall k :: 0 <= k < |p.records| ==> k < |scores| && p.records[k].ticker == scores[k].ticker)
    && Map(RecordTicker, Filter(IsAllowed, p.records)) == Map(IntentTicker, p.purse.intents)
  }

  lemma DecideNames(
    score: Score, triggered: Option<bool>, evaluation: Option<EntryTiming.Evaluation>, last: real,
    equity: real, purse: Purse, s: Settings)
    ensures Names(score, Decide(score, triggered, evaluation, last, equity, purse, s))
  {
  }

  lemma AdvanceKeepsMatched(scores: seq<Score>, score: Score, p: Progress, step: Step)
    requires Matched(scores, p) && |p.records| == |scores|
    requires Names(score, step)
    ensures Matched(scores + [score], Advance(p, step))
  {
    if !step.Raise? {
      FilterAppend(IsAllowed, p.records, [step.record]);
      if step.Buy? {
        MapAppend(RecordTicker, Filter(IsAllowed, p.records), step.record);
        MapAppend(IntentTicker, p.purse.intents, step.intent);
      }
    }
  }

  lemma ConsiderNames(score: Score, inputs: Inputs, equity: real, purse: Purse, s: Settings)
    ensures Names(score, Consider(score, inputs, equity, purse, s))
  {
    if score.ticker in inputs {
      var b := inputs[score.ticker];
      DecideNames(
        score, Triggered(b, s.breakoutK), TimingOf(b, s), b.last, equity, purse, s);
    }
  }

  ghost predicate OneEach(scores: seq<Score>, p: Progress) {
    && (if p.error.None? then |p.records| == |scores| else |p.records| < |scores|)
    && Matched(scores, p)
  }

  /** The step is about the score and buys exactly what it allows. */
  ghost predicate Names(score: Score, step: Step) {
    && (!step.Raise? ==>
          step.record.ticker == score.ticker && step.record.allowed == step.Buy?)
    && (step.Buy? ==> step.intent.ticker == score.ticker)
  }

  lemma AdvanceKeepsOneEach(scores: seq<Score>, score: Score, p: Progress, step: Step)
    requires OneEach(scores, p) && p.error.None? && Names(score, step)
    ensures OneEach(scores + [score], Advance(p, step))
  {
    AdvanceKeepsMatched(scores, score, p, step);
  }

  lemma NextStep(scores: seq<Score>, i: nat, inputs: Inputs, account: Account, s: Settings)
    returns (step: Step)
    requires i < |scores| && Plan(scores[..i], inputs, account, s).error.None?
    ensures Names(scores[i], step)
    ensures Plan(scores[..i + 1], inputs, account, s)
            == Advance(Plan(scores[..i], inputs, account, s), step)
  {
    var purse := Plan(scores[..i], inputs, account, s).purse;
    step := Consider(scores[i], inputs, account.equity, purse, s);
    ConsiderNames(scores[i], inputs, account.equity, purse, s);
    assert scores[..i + 1][..i] == scores[..i];
  }

  /**
   * Every score before an error has exactly one evaluation, in order; the allowed ones are, in
   * order, exactly the intents.
   */
  lemma {:induction false} EvaluationsMatch(
    scores: seq<Score>, inputs: Inputs, account: Account, s: Settings)
    ensures OneEach(scores, Plan(scores, inputs, account, s))
  {
    if scores != [] {
      var i := |scores| - 1;
      EvaluationsMatch(scores[..i], inputs, account, s);
      assert scores[..i + 1] == scores == scores[..i] + [scores[i]];
      if Plan(scores[..i], inputs, account, s).error.Some? {
        ErrorStops(scores, i, inputs, account, s);
      } else {
        var step := NextStep(scores, i, inputs, account, s);
        AdvanceKeepsOneEach(scores[..i], scores[i], Plan(scores[..i], inputs, account, s), step);
      }
    }
  }

  /** What a score needs to be bought, given what the orders before it cost. */
  ghost predicate Deserves(
    score: Score, triggered: Option<bool>, evaluation: Option<EntryTiming.Evaluation>, last: real,
    spent: real, account: Account, s: Settings)
  {
    && triggered == Some(true) && last != 0.0 && evaluation.Some? && evaluation.value.allowed
    && var final := FinalScore(score, evaluation.value);
       var order := OrderValue(account.cash - spent, account.equity, final, s);
       && final >= s.minScore
       && EntryGate(account.equity, account.invested + spent, order, s.limits).Allowed?
       && Shares(order, last) >= 1
  }

  /** A score is bought exactly when it deserves it under what the intents before it cost. */
  lemma BoughtExactlyWhen(
    scores: seq<Score>, k: nat, inputs: Inputs, account: Account, s: Settings)
    requires k < |scores| && scores[k].ticker in inputs
    requires Plan(scores[..k], inputs, account, s).error.None?
    ensures var before := Plan(scores[..k], inputs, account, s).purse.intents;
            var after := Plan(scores[..k + 1], inputs, account, s).purse.intents;
            var b := inputs[scores[k].ticker];
            after != before <==> Deserves(
              scores[k], Triggered(b, s.breakoutK), TimingOf(b, s), b.last,
              SumBy(ValueOf, before), account, s)
  {
    assert scores[..k + 1][..k] == scores[..k];
    PlanKeepsBudget(scores[..k], inputs, account, s);
    var purse := Plan(scores[..k], inputs, account, s).purse;
    var spent := SumBy(ValueOf, purse.intents);
    assert purse.cash == account.cash - spent && purse.invested == account.invested + spent;
    var b := inputs[scores[k].ticker];
    BuysIffDeserves(
      scores[k], Triggered(b, s.breakoutK), TimingOf(b, s), b.last, account, purse, spent, s);
  }

  lemma BuysIffDeserves(
    score: Score, triggered: Option<bool>, evaluation: Option<EntryTiming.Evaluation>, last: real,
    account: Account, purse: Purse, spent: real, s: Settings)
    requires purse.cash == account.cash - spent && purse.invested == account.invested + spent
    ensures Decide(score, triggered, evaluation, last, account.equity, purse, s).Buy?
            <==> Deserves(score, triggered, evaluation, last, spent, account, s)
  {
  }
}
