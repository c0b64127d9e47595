/** When a score is bought, for how much, and why not otherwise, said on prices, points and money. */
module BuyMeaning {
  import opened BuyPlanner
  import opened Common
  import L = ListBuyPlanner
  import opened OrderBudget
  import opened RealFacts

  // ---- money and points --------------------------------------------------------

  /** Prices of the day and the day before that make sense. */
  predicate Sane(b: EntryTiming.Breakout) {
    b.open > 0.0 && 0.0 < b.previousLow <= b.previousHigh
  }

  /** The price the breakout must reach: the open and a part of the last day's range. */
  function Target(b: EntryTiming.Breakout, k: real): real {
    b.open + (b.previousHigh - b.previousLow) * k
  }

  /** Every soft failure takes five points, down to zero. */
  predicate IsFinal(final: real, total: real, failures: nat) {
    final == if total - 5.0 * failures as real < 0.0 then 0.0 else total - 5.0 * failures as real
  }

  /** The smaller of two amounts. */
  predicate IsSmaller(x: real, a: real, b: real) { x <= a && x <= b && (x == a || x == b) }

  /** The part of the equity that the points earn, within the limit: 5%, from 70 points 10%, from 85 20%. */
  predicate IsShare(share: real, points: real, limit: real) {
    IsSmaller(share, if points >= 85.0 then 0.2 else if points >= 70.0 then 0.1 else 0.05, limit)
  }

  /** The most whole shares at `price` that `order` pays for. */
  predicate IsWhole(quantity: int, order: real, price: real) {
    quantity as real * price <= order < (quantity + 1) as real * price
  }

  /** Why an order is refused, None when it is placed: its size, the two limits, whole shares. */
  function Obstacle(order: real, price: real, equity: real, invested: real, limits: Limits)
    : Option<string>
  {
    if order <= 0.0 then Some("INVALID_ORDER_VALUE")
    else if equity <= 0.0 then Some("INVALID_ACCOUNT_EQUITY")
    else if order > limits.maxPosition * equity then Some("POSITION_EXPOSURE_LIMIT")
    else if invested + order > limits.maxAccount * equity then Some("ACCOUNT_EXPOSURE_LIMIT")
    else if price < 0.0 || order < price then Some("ORDER_NOT_SUBMITTED")
    else None
  }

  lemma RatioAbove(a: real, e: real, limit: real)
    requires e > 0.0
    ensures a / e > limit <==> a > limit * e
  {
    var q := a / e;
    assert q * e == a;
    assert q > limit ==> q * e > limit * e;
    assert q <= limit ==> q * e <= limit * e;
  }

  lemma GateStated(order: real, equity: real, invested: real, limits: Limits)
    ensures var gate := EntryGate(equity, invested, order, limits);
            gate == if order <= 0.0 then Refused("INVALID_ORDER_VALUE")
                    else if equity <= 0.0 then Refused("INVALID_ACCOUNT_EQUITY")
                    else if order > limits.maxPosition * equity then Refused("POSITION_EXPOSURE_LIMIT")
                    else if invested + order > limits.maxAccount * equity then
                      Refused("ACCOUNT_EXPOSURE_LIMIT")
                    else Allowed
  {
    if equity > 0.0 {
      RatioAbove(order, equity, limits.maxPosition);
      RatioAbove(invested + order, equity, limits.maxAccount);
    }
  }

  lemma RatioOfOne(a: real, b: real)
    requires b > 0.0
    ensures a / b >= 1.0 <==> a >= b
  {
    var q := a / b;
    assert q * b == a;
    ProductMonotone(1.0, if q >= 1.0 then q else 1.0, b);
    assert q < 1.0 ==> (1.0 - q) * b > 0.0;
  }

  lemma OneShareFits(order: real, price: real)
    requires order > 0.0 && price != 0.0
    ensures Shares(order, price) >= 1 <==> 0.0 < price <= order
    ensures price > 0.0 ==> IsWhole(Shares(order, price), order, price)
  {
    if price > 0.0 {
      SharesFit(order, price);
      RatioOfOne(order, price);
    } else if Shares(order, price) >= 1 {
      PriceIsPositive(order, price);
    }
  }

  /** An order of whole shares at the price, worth what they cost. */
  predicate IsIntent(i: Intent, ticker: string, order: real, price: real, share: real) {
    && i.ticker == ticker && i.limitPrice == price && i.fraction == share
    && IsWhole(i.quantity, order, price) && i.quantity >= 1
    && i.value == i.quantity as real * price
  }

  // ---- one score ---------------------------------------------------------------

  /** The order for these points: the smaller of the cash and the earned share of the equity. */
  ghost predicate IsOrder(order: real, share: real, points: real, cash: real, equity: real, s: Settings) {
    IsShare(share, points, s.limits.maxPosition) && IsSmaller(order, cash, equity * share)
  }

  /** What an order of a score with points enough leads to: an error, a refusal or its intent. */
  predicate PlacedAs(
    step: Step, ticker: string, points: real, price: real, order: real, share: real, invested: real,
    equity: real, limits: Limits)
  {
    var obstacle := Obstacle(order, price, equity, invested, limits);
    if price == 0.0 then step == Raise(ZeroPrice)
    else if obstacle.Some? then
      step == Skip(Record(ticker, points, false, obstacle.value, [obstacle.value]))
    else
      && step.Buy? && step.record == Record(ticker, points, true, "BUY_ALLOWED", [])
      && IsIntent(step.intent, ticker, order, price, share)
  }

  ghost predicate Placed(
    step: Step, ticker: string, points: real, price: real, cash: real, invested: real, equity: real,
    s: Settings)
  {
    exists order, share :: IsOrder(order, share, points, cash, equity, s)
      && PlacedAs(step, ticker, points, price, order, share, invested, equity, s.limits)
  }

  /** What a triggered score leads to with the points it has in the end. */
  ghost predicate Followed(
    step: Step, ticker: string, points: real, price: real, e: EntryTiming.Evaluation, cash: real,
    invested: real, equity: real, s: Settings)
  {
    if !e.allowed then
      step == Skip(Record(
        ticker, points, false, if e.hard == [] then "ORDER_NOT_SUBMITTED" else e.hard[0], e.hard))
    else if points < s.minScore then
      step == Skip(Record(
        ticker, points, false, "FINAL_SCORE_BELOW_THRESHOLD", ["FINAL_SCORE_BELOW_THRESHOLD"]))
    else Placed(step, ticker, points, price, cash, invested, equity, s)
  }

  /** What a score leads to, from its prices, its evaluation and the money left. */
  ghost predicate Considered(
    step: Step, score: Score, inputs: Inputs, evaluation: Option<EntryTiming.Evaluation>,
    cash: real, invested: real, equity: real, s: Settings)
  {
    if score.ticker !in inputs then step == Raise(MissingInput)
    else if !Sane(inputs[score.ticker]) then step == Raise(InvalidPrices)
    else if evaluation.None? then step == Raise(UnknownPolicy)
    else if inputs[score.ticker].last < Target(inputs[score.ticker], s.breakoutK) then
      step == Skip(Record(
        score.ticker, score.total, false, "BREAKOUT_NOT_TRIGGERED", ["BREAKOUT_NOT_TRIGGERED"]))
    else
      exists points :: IsFinal(points, score.total, |evaluation.value.soft|)
        && Followed(
             step, score.ticker, points, inputs[score.ticker].last, evaluation.value, cash, invested,
             equity, s)
  }

  lemma OrderIsStated(points: real, cash: real, equity: real, s: Settings)
    requires points >= s.minScore
    ensures IsOrder(OrderValue(cash, equity, points, s), Fraction(points, s), points, cash, equity, s)
  {
  }

  lemma PlacedStated(ticker: string, points: real, price: real, equity: real, purse: Purse, s: Settings)
    requires points >= s.minScore
    ensures Placed(
              PlaceOrder(ticker, points, price, equity, purse, s), ticker, points, price, purse.cash,
              purse.invested, equity, s)
  {
    var order, share := OrderValue(purse.cash, equity, points, s), Fraction(points, s);
    OrderIsStated(points, purse.cash, equity, s);
    GateStated(order, equity, purse.invested, s.limits);
    if price != 0.0 && order > 0.0 {
      OneShareFits(order, price);
    }
    assert PlacedAs(
        PlaceOrder(ticker, points, price, equity, purse, s), ticker, points, price, order, share,
        purse.invested, equity, s.limits);
  }

  /** The evaluation of a score's prices. */
  function Evaluated(score: Score, inputs: Inputs, s: Settings): Option<EntryTiming.Evaluation> {
    if score.ticker !in inputs then None
    else
      var b := inputs[score.ticker];
      EntryTiming.Evaluate(b, Target(b, s.breakoutK), s.timing)
  }

  lemma TriggerStated(b: EntryTiming.Breakout, k: real)
    ensures Triggered(b, k) == if Sane(b) then Some(b.last >= Target(b, k)) else None
  {
  }

  lemma PointsStated(b: EntryTiming.Breakout, s: Settings)
    ensures var evaluation := EntryTiming.Evaluate(b, Target(b, s.breakoutK), s.timing);
            evaluation.Some? ==>
              evaluation.value.adjustment == 0.0 - 5.0 * |evaluation.value.soft| as real
  {
  }

  lemma FollowedStated(
    score: Score, e: EntryTiming.Evaluation, last: real, equity: real, purse: Purse, s: Settings)
    returns (points: real)
    requires e.adjustment == 0.0 - 5.0 * |e.soft| as real
    ensures IsFinal(points, score.total, |e.soft|)
    ensures Followed(
              Decide(score, Some(true), Some(e), last, equity, purse, s), score.ticker, points, last,
              e, purse.cash, purse.invested, equity, s)
  {
    points := FinalScore(score, e);
    if points >= s.minScore {
      PlacedStated(score.ticker, points, last, equity, purse, s);
    }
  }

  lemma ConsiderStated(
    score: Score, inputs: Inputs, equity: real, purse: Purse, cash: real, invested: real, s: Settings)
    requires purse.cash == cash && purse.invested == invested
    ensures Considered(
              Consider(score, inputs, equity, purse, s), score, inputs, Evaluated(score, inputs, s),
              cash, invested, equity, s)
  {
    var evaluation := Evaluated(score, inputs, s);
    if score.ticker in inputs {
      var b := inputs[score.ticker];
      TriggerStated(b, s.breakoutK);
      assert TimingOf(b, s) == evaluation;
      if evaluation.Some? {
        PointsStated(b, s);
        var _ := FollowedStated(score, evaluation.value, b.last, equity, purse, s);
      }
    }
  }

  // ---- a whole plan ------------------------------------------------------------

  function CostOf(intent: Intent): real { intent.value }

  /** The plan goes on by one step: an error ends it, a record is added, an order with it. */
  predicate GoesOn(p: Progress, next: Progress, step: Step) {
    match step
    case Raise(error) =>
      next.records == p.records && next.purse.intents == p.purse.intents && next.error == Some(error)
    case Skip(record) =>
      next.records == p.records + [record] && next.purse.intents == p.purse.intents
      && next.error.None?
    case Buy(record, intent) =>
      next.records == p.records + [record] && next.purse.intents == p.purse.intents + [intent]
      && next.error.None?
  }

  /** What is left and what is invested follow from the orders placed so far. */
  lemma MoneyStated(account: Account, limits: Limits, purse: Purse)
    requires WithinBudget(account, limits, purse)
    ensures purse.cash == account.cash - SumBy(CostOf, purse.intents)
    ensures purse.invested == account.invested + SumBy(CostOf, purse.intents)
  {
    SumByAgree(ValueOf, CostOf, purse.intents);
  }

  lemma AdvanceStated(p: Progress, step: Step)
    requires p.error.None?
    ensures GoesOn(p, Advance(p, step), step)
  {
  }

  lemma PlanGoesOn(scores: seq<Score>, k: nat, inputs: Inputs, account: Account, s: Settings)
    requires k < |scores| && Plan(scores[..k], inputs, account, s).error.None?
    ensures var p := Plan(scores[..k], inputs, account, s);
            GoesOn(p, Plan(scores[..k + 1], inputs, account, s),
              Consider(scores[k], inputs, account.equity, p.purse, s))
  {
    assert scores[..k + 1][..k] == scores[..k];
    var p := Plan(scores[..k], inputs, account, s);
    AdvanceStated(p, Consider(scores[k], inputs, account.equity, p.purse, s));
  }

  /**
   * Each score is considered with the cash left and the money invested after the orders before it,
   * and adds its record and its order to the plan; the first error ends the plan.
   */
  lemma PlanStated(
    scores: seq<Score>, k: nat, inputs: Inputs, account: Account, s: Settings, cash: real,
    invested: real) returns (step: Step)
    requires k < |scores| && Plan(scores[..k], inputs, account, s).error.None?
    requires var spent := SumBy(CostOf, Plan(scores[..k], inputs, account, s).purse.intents);
             cash == account.cash - spent && invested == account.invested + spent
    ensures Considered(
              step, scores[k], inputs, Evaluated(scores[k], inputs, s), cash, invested,
              account.equity, s)
    ensures GoesOn(
              Plan(scores[..k], inputs, account, s), Plan(scores[..k + 1], inputs, account, s), step)
  {
    var purse := Plan(scores[..k], inputs, account, s).purse;
    PlanKeepsBudget(scores[..k], inputs, account, s);
    MoneyStated(account, s.limits, purse);
    step := Consider(scores[k], inputs, account.equity, purse, s);
    ConsiderStated(scores[k], inputs, account.equity, purse, cash, invested, s);
    PlanGoesOn(scores, k, inputs, account, s);
  }

  // ---- the ranked list ---------------------------------------------------------

  predicate ListedAs(
    step: L.Step, ticker: string, price: real, order: real, invested: real, equity: real, s: L.Settings)
  {
    if Obstacle(order, price, equity, invested, s.limits).Some? then step.Leaves?
    else step.Buys? && IsIntent(step.intent, ticker, order, price, 0.01)
  }

  /** A quote leads to an order of one percent of the equity, unless it is out of range or obstructed. */
  ghost predicate Listed(
    step: L.Step, item: L.Ranked, cash: real, invested: real, equity: real, s: L.Settings)
  {
    if item.last.None? || item.last.value < s.minPrice || item.last.value > s.maxPrice then step.Leaves?
    else if item.last.value == 0.0 then step.Divides?
    else
      exists order :: IsSmaller(order, cash, equity * 0.01)
        && ListedAs(step, item.ticker, item.last.value, order, invested, equity, s)
  }

  lemma ItemStated(item: L.Ranked, account: Account, cash: real, invested: real, s: L.Settings)
    ensures Listed(
              L.ConsiderItem(item, account, cash, invested, s), item, cash, invested, account.equity, s)
  {
    var order := MinReal(cash, account.equity * 0.01);
    assert IsSmaller(order, cash, account.equity * 0.01);
    GateStated(order, account.equity, invested, s.limits);
    if item.last.Some? && item.last.value != 0.0 {
      if order > 0.0 {
        OneShareFits(order, item.last.value);
      }
      if s.minPrice <= item.last.value <= s.maxPrice {
        assert ListedAs(
            L.ConsiderItem(item, account, cash, invested, s), item.ticker, item.last.value, order,
            invested, account.equity, s);
      }
    }
  }

  /**
   * Each quote is considered while there is room for another order and no division failed, with the
   * cash left and the money invested after the orders before it.
   */
  lemma ListStated(rankings: seq<L.Ranked>, k: nat, account: Account, s: L.Settings)
    returns (step: L.Step)
    requires k < |rankings|
    ensures var p, next := L.Collect(rankings[..k], account, s), L.Collect(rankings[..k + 1], account, s);
            var spent, count := SumBy(CostOf, p.purse.intents), |p.purse.intents|;
            && Listed(step, rankings[k], account.cash - spent, account.invested + spent,
                 account.equity, s)
            && if p.divisionError || count >= s.limit
                  || account.openPositions + count >= s.maxOpenPositions then next == p
               else
                 && next.divisionError == step.Divides?
                 && next.purse.intents == p.purse.intents + if step.Buys? then [step.intent] else []
  {
    var p := L.Collect(rankings[..k], account, s);
    L.CollectStep(rankings, k, account, s);
    L.ListKeepsBudget(rankings[..k], account, s);
    MoneyStated(account, s.limits, p.purse);
    step := L.ConsiderItem(rankings[k], account, p.purse.cash, p.purse.invested, s);
    ItemStated(rankings[k], account, p.purse.cash, p.purse.invested, s);
  }
}
