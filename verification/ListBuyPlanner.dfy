/** Orders from a ranked list: one percent of equity each, until a count limit is reached. */
module ListBuyPlanner {
  import opened Common
  import opened OrderBudget

  /** `last` is the quoted price, None when the quote has no usable price. */
  datatype Ranked = Ranked(ticker: string, last: Option<real>)

  datatype Settings = Settings(
    limits: Limits, minPrice: real, maxPrice: real, maxOpenPositions: int, limit: int)

  const LIST_FRACTION := 0.01

  datatype Step = Divides | Leaves | Buys(intent: Intent)

  /** The list stands at `purse`; the error is the division by a zero price. */
  datatype Progress = Progress(purse: Purse, divisionError: bool)

  predicate Full(count: nat, account: Account, s: Settings) {
    count >= s.limit || account.openPositions + count >= s.maxOpenPositions
  }

  function ConsiderItem(item: Ranked, account: Account, cash: real, invested: real, s: Settings): Step {
    if item.last.None? || !(s.minPrice <= item.last.value <= s.maxPrice) then Leaves
    else if item.last.value == 0.0 then Divides
    else
      var order := MinReal(cash, account.equity * LIST_FRACTION);
      if Shares(order, item.last.value) < 1
         || EntryGate(account.equity, invested, order, s.limits).Refused?
      then Leaves
      else Buys(IntentFor(item.ticker, order, item.last.value, LIST_FRACTION))
  }

  function Advance(p: Progress, item: Ranked, account: Account, s: Settings): Progress {
    if p.divisionError || Full(|p.purse.intents|, account, s) then p
    else match ConsiderItem(item, account, p.purse.cash, p.purse.invested, s)
      case Divides => p.(divisionError := true)
      case Leaves => p
      case Buys(intent) => p.(purse := Spend(p.purse, intent))
  }

  function Collect(rankings: seq<Ranked>, account: Account, s: Settings): Progress {
    if rankings == [] then Progress(Opening(account), false)
    else Advance(
      Collect(rankings[..|rankings| - 1], account, s), rankings[|rankings| - 1], account, s)
  }

  lemma CollectStep(rankings: seq<Ranked>, i: nat, account: Account, s: Settings)
    requires i < |rankings|
    ensures Collect(rankings[..i + 1], account, s)
            == Advance(Collect(rankings[..i], account, s), rankings[i], account, s)
  {
    assert rankings[..i + 1][..i] == rankings[..i];
  }

  /** Once the list is full, or an error stopped it, no later ranking matters. */
  lemma {:induction false} LaterRankingsIgnored(
    rankings: seq<Ranked>, k: nat, account: Account, s: Settings)
    requires k <= |rankings|
    requires var p := Collect(rankings[..k], account, s);
             p.divisionError || Full(|p.purse.intents|, account, s)
    ensures Collect(rankings, account, s) == Collect(rankings[..k], account, s)
  {
    if k < |rankings| {
      var before := rankings[..|rankings| - 1];
      assert before[..k] == rankings[..k];
      LaterRankingsIgnored(before, k, account, s);
    } else {
      assert rankings[..k] == rankings;
    }
  }

  method CollectRankedBuyIntents(rankings: seq<Ranked>, account: Account, s: Settings)
    returns (intents: seq<Intent>, divisionError: bool)
    ensures Collect(rankings, account, s).purse.intents == intents
    ensures Collect(rankings, account, s).divisionError == divisionError
  {
    intents, divisionError := [], false;
    var cash, invested := account.cash, account.invested;
    for i := 0 to |rankings|
      invariant Collect(rankings[..i], account, s)
                == Progress(Purse(cash, invested, intents), false)
      invariant !divisionError
    {
      if |intents| >= s.limit || account.openPositions + |intents| >= s.maxOpenPositions {
        LaterRankingsIgnored(rankings, i, account, s);
        return;
      }
      CollectStep(rankings, i, account, s);
      var last := rankings[i].last;
      if last.None? || !(s.minPrice <= last.value <= s.maxPrice) {
        continue;
      }
      if last.value == 0.0 {
        LaterRankingsIgnored(rankings, i + 1, account, s);
        return intents, true;
      }
      var order := MinReal(cash, account.equity * LIST_FRACTION);
      var quantity := Shares(order, last.value);
      if quantity < 1 || EntryGate(account.equity, invested, order, s.limits).Refused? {
        continue;
      }
      var filled := Value(quantity, last.value);
      intents := intents
        + [Intent(rankings[i].ticker, quantity, last.value, filled, LIST_FRACTION)];
      cash := cash - filled;
      invested := invested + filled;
    }
    assert rankings[..|rankings|] == rankings;
  }

  ghost predicate Capped(account: Account, s: Settings, count: nat) {
    && count <= Max(0, s.limit)
    && account.openPositions + count <= Max(account.openPositions, s.maxOpenPositions)
  }

  /** The budget of every plan, and never more orders than the limit or the open-position limit. */
  lemma {:induction false} ListKeepsBudget(rankings: seq<Ranked>, account: Account, s: Settings)
    ensures WithinBudget(account, s.limits, Collect(rankings, account, s).purse)
    ensures Capped(account, s, |Collect(rankings, account, s).purse.intents|)
    ensures SumBy(ValueOf, Collect(rankings, account, s).purse.intents) <= MaxReal(0.0, account.cash)
    ensures forall intent :: intent in Collect(rankings, account, s).purse.intents ==>
                               s.minPrice <= intent.limitPrice <= s.maxPrice
  {
    if rankings != [] {
      var before, item := rankings[..|rankings| - 1], rankings[|rankings| - 1];
      ListKeepsBudget(before, account, s);
      var purse := Collect(before, account, s).purse;
      var step := ConsiderItem(item, account, purse.cash, purse.invested, s);
      if Collect(rankings, account, s).purse != purse {
        var order := MinReal(purse.cash, account.equity * LIST_FRACTION);
        GatedIntentIsSound(
          account, s.limits, purse.invested, item.ticker, order, item.last.value, LIST_FRACTION);
        SpendKeepsBudget(account, s.limits, purse, step.intent);
      }
    }
    OrdersWithinCash(account, s.limits, Collect(rankings, account, s).purse);
  }
}
