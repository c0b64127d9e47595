/** What both buy planners share: the entry gate, whole shares, and the running cash and exposure. */
module OrderBudget {
  import opened Common
  import opened RealFacts

  datatype Account = Account(cash: real, equity: real, invested: real, openPositions: int)

  datatype Limits = Limits(maxPosition: real, maxAccount: real)

  datatype Intent = Intent(
    ticker: string, quantity: int, limitPrice: real, value: real, fraction: real)

  datatype Gate = Allowed | Refused(reason: string)

  function EntryGate(equity: real, invested: real, order: real, limits: Limits): Gate {
    if order <= 0.0 then Refused("INVALID_ORDER_VALUE")
    else if equity <= 0.0 then Refused("INVALID_ACCOUNT_EQUITY")
    else if order / equity > limits.maxPosition then Refused("POSITION_EXPOSURE_LIMIT")
    else if (invested + order) / equity > limits.maxAccount then Refused("ACCOUNT_EXPOSURE_LIMIT")
    else Allowed
  }

  function Value(quantity: int, price: real): real { quantity as real * price }

  function Shares(order: real, price: real): int
    requires price != 0.0
  {
    (order / price).Floor
  }

  function ValueOf(intent: Intent): real { intent.value }

  /** Buys as many whole shares as the order value covers. */
  function IntentFor(ticker: string, order: real, price: real, fraction: real): Intent
    requires price != 0.0
  {
    var quantity := Shares(order, price);
    Intent(ticker, quantity, price, Value(quantity, price), fraction)
  }

  /** The running totals of a planner: what is left, what is invested, what was decided. */
  datatype Purse = Purse(cash: real, invested: real, intents: seq<Intent>)

  function Opening(account: Account): Purse { Purse(account.cash, account.invested, []) }

  function Spend(purse: Purse, intent: Intent): Purse {
    Purse(purse.cash - intent.value, purse.invested + intent.value, purse.intents + [intent])
  }

  /** Equity times a limit on the share of it that may be used. */
  function Cap(equity: real, share: real): real { equity * share }

  ghost predicate SoundIntent(account: Account, limits: Limits, intent: Intent) {
    && intent.quantity >= 1 && intent.limitPrice > 0.0
    && intent.value == Value(intent.quantity, intent.limitPrice) > 0.0
    && intent.value <= Cap(account.equity, limits.maxPosition)
  }

  /** Money only moves from cash to holdings, and neither limit is passed on the way. */
  ghost predicate WithinBudget(account: Account, limits: Limits, purse: Purse) {
    && purse.cash + purse.invested == account.cash + account.invested
    && purse.invested == account.invested + SumBy(ValueOf, purse.intents)
    && purse.cash >= MinReal(0.0, account.cash)
    && purse.invested <= MaxReal(account.invested, Cap(account.equity, limits.maxAccount))
    && forall i :: 0 <= i < |purse.intents| ==> SoundIntent(account, limits, purse.intents[i])
  }

  lemma ScaledBetween(low: real, ratio: real, high: real, price: real)
    requires low <= ratio < high && price > 0.0
    ensures low * price <= ratio * price < high * price
  {
    ProductMonotone(low, ratio, price);
    ProductPositive(high - ratio, price);
    assert (high - ratio) * price == high * price - ratio * price;
  }

  lemma ValueBetween(low: int, high: int, ratio: real, price: real, order: real)
    requires low as real <= ratio < high as real && price > 0.0 && ratio * price == order
    ensures Value(low, price) <= order < Value(high, price)
  {
    ScaledBetween(low as real, ratio, high as real, price);
  }

  lemma SharesFit(order: real, price: real)
    requires price > 0.0
    ensures Value(Shares(order, price), price) <= order < Value(Shares(order, price) + 1, price)
  {
    var ratio, q := order / price, Shares(order, price);
    assert ratio * price == order;
    ValueBetween(q, q + 1, ratio, price, order);
  }

  lemma PriceIsPositive(order: real, price: real)
    requires price != 0.0 && order > 0.0 && Shares(order, price) >= 1
    ensures price > 0.0
  {
    var ratio := order / price;
    assert ratio * price == order;
    assert ratio >= 1.0;
    assert price < 0.0 ==> ratio * price < 0.0;
  }

  lemma ValuePositive(quantity: int, price: real)
    requires quantity >= 1 && price > 0.0
    ensures Value(quantity, price) > 0.0
  {
    ProductPositive(quantity as real, price);
  }

  lemma GateBounds(equity: real, invested: real, order: real, limits: Limits)
    requires EntryGate(equity, invested, order, limits).Allowed?
    ensures order <= Cap(equity, limits.maxPosition)
    ensures invested + order <= Cap(equity, limits.maxAccount)
  {
    QuotientBound(order, equity, limits.maxPosition);
    QuotientBound(invested + order, equity, limits.maxAccount);
  }

  lemma GatedIntentIsSound(
    account: Account, limits: Limits, invested: real, ticker: string, order: real, price: real,
    fraction: real)
    requires price != 0.0 && Shares(order, price) >= 1
    requires EntryGate(account.equity, invested, order, limits).Allowed?
    ensures var intent := IntentFor(ticker, order, price, fraction);
            && SoundIntent(account, limits, intent) && intent.value <= order
            && invested + intent.value <= Cap(account.equity, limits.maxAccount)
            && order < Value(intent.quantity + 1, price)
  {
    PriceIsPositive(order, price);
    SharesFit(order, price);
    ValuePositive(Shares(order, price), price);
    GateBounds(account.equity, invested, order, limits);
  }

  lemma SpendKeepsBudget(account: Account, limits: Limits, purse: Purse, intent: Intent)
    requires WithinBudget(account, limits, purse)
    requires SoundIntent(account, limits, intent) && intent.value <= purse.cash
    requires purse.invested + intent.value <= Cap(account.equity, limits.maxAccount)
    ensures WithinBudget(account, limits, Spend(purse, intent))
  {
    SumByAppend(ValueOf, purse.intents, [intent]);
  }

  /** Orders never cost more than the cash there was. */
  lemma OrdersWithinCash(account: Account, limits: Limits, purse: Purse)
    requires WithinBudget(account, limits, purse)
    ensures SumBy(ValueOf, purse.intents) <= MaxReal(0.0, account.cash)
  {
  }
}
