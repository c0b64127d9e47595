/** One simulated intraday trade: stop, target, trailing stop or end of day, with costs. */
module TradeSimulation {
  import opened Common
  import opened RealFacts

  /** `time` counts seconds; bars of one day are consecutive in time. */
  datatype Bar = Bar(
    day: int, time: int, open: real, high: real, low: real, close: real, volume: real)

  /** Rates of the exit rules and costs of a fill. */
  datatype Rules = Rules(
    loss: real, target: real, activation: real, drop: real, slippage: real, commission: real)

  datatype Reason = StopLoss | TakeProfit | TrailingStop | EndOfDay

  datatype Trade = Trade(
    ticker: string, entryTime: int, exitTime: int, entryPrice: real, exitPrice: real,
    returnRate: real, reason: Reason, holdingMinutes: real)

  // ---- prices ----------------------------------------------------------------

  function Scaled(price: real, factor: real): real { price * factor }

  function EntryPrice(bars: seq<Bar>, entry: nat, rules: Rules): real
    requires entry < |bars|
  {
    Scaled(bars[entry].open, 1.0 + rules.slippage)
  }

  function StopPrice(price: real, rules: Rules): real { Scaled(price, 1.0 + rules.loss) }

  function TargetPrice(price: real, rules: Rules): real { Scaled(price, 1.0 + rules.target) }

  function NetReturn(exitPrice: real, entryPrice: real, commission: real): real
    requires entryPrice * (1.0 + commission) != 0.0
  {
    exitPrice * (1.0 - commission) / (entryPrice * (1.0 + commission)) - 1.0
  }

  // ---- what the bars up to k say ----------------------------------------------

  /** The highest price since entry, as the rules see it at bar `k`. */
  function HighestUpTo(bars: seq<Bar>, entry: nat, k: nat, price: real): real
    requires entry <= k < |bars|
    decreases k
  {
    MaxReal(if k == entry then price else HighestUpTo(bars, entry, k - 1, price), bars[k].high)
  }

  /** The exit rule bar `k` meets, if any, with its price before slippage; the stop comes first. */
  function RuleAt(bars: seq<Bar>, entry: nat, k: nat, rules: Rules): Option<(Reason, real)>
    requires entry <= k < |bars|
  {
    var price := EntryPrice(bars, entry, rules);
    var highest := HighestUpTo(bars, entry, k, price);
    var trailing := Scaled(highest, 1.0 - rules.drop);
    if bars[k].low <= StopPrice(price, rules) then Some((StopLoss, StopPrice(price, rules)))
    else if bars[k].high >= TargetPrice(price, rules) then
      Some((TakeProfit, TargetPrice(price, rules)))
    else if highest >= Scaled(price, 1.0 + rules.activation) && bars[k].low <= trailing then
      Some((TrailingStop, trailing))
    else None
  }

  /** `k` is the first bar from entry on that meets an exit rule. */
  ghost predicate FirstExit(bars: seq<Bar>, entry: nat, k: nat, rules: Rules) {
    && entry <= k < |bars| && RuleAt(bars, entry, k, rules).Some?
    && forall j :: entry <= j < k ==> RuleAt(bars, entry, j, rules).None?
  }

  ghost predicate NoExit(bars: seq<Bar>, entry: nat, rules: Rules) {
    forall j :: entry <= j < |bars| ==> RuleAt(bars, entry, j, rules).None?
  }

  /** What the entry costs, which the return is measured against; a zero cost cannot be divided by. */
  function EntryCost(bars: seq<Bar>, entry: nat, rules: Rules): real
    requires entry < |bars|
  {
    EntryPrice(bars, entry, rules) * (1.0 + rules.commission)
  }

  function TradeAt(
    ticker: string, bars: seq<Bar>, entry: nat, k: nat, raw: real, reason: Reason, rules: Rules)
    : Trade
    requires entry < |bars| && k < |bars|
    requires EntryCost(bars, entry, rules) != 0.0
  {
    var price, exit := EntryPrice(bars, entry, rules), Scaled(raw, 1.0 - rules.slippage);
    Trade(
      ticker, bars[entry].time, bars[k].time, price, exit, NetReturn(exit, price, rules.commission),
      reason, (bars[k].time - bars[entry].time) as real / 60.0)
  }

  /** The trade leaves at the first bar that meets a rule, or at the last close. */
  ghost predicate IsSimulated(ticker: string, bars: seq<Bar>, entry: nat, rules: Rules, trade: Trade)
    requires entry < |bars|
    requires EntryCost(bars, entry, rules) != 0.0
  {
    && (forall k: nat :: FirstExit(bars, entry, k, rules) ==>
          var (reason, raw) := RuleAt(bars, entry, k, rules).value;
          trade == TradeAt(ticker, bars, entry, k, raw, reason, rules))
    && (NoExit(bars, entry, rules) ==>
          trade == TradeAt(
            ticker, bars, entry, |bars| - 1, bars[|bars| - 1].close, EndOfDay, rules))
    && (trade.reason.EndOfDay? <==> NoExit(bars, entry, rules))
  }

  lemma FirstExitDecides(
    ticker: string, bars: seq<Bar>, entry: nat, k: nat, rules: Rules, trade: Trade)
    requires FirstExit(bars, entry, k, rules)
    requires EntryCost(bars, entry, rules) != 0.0
    requires var (reason, raw) := RuleAt(bars, entry, k, rules).value;
             trade == TradeAt(ticker, bars, entry, k, raw, reason, rules)
    ensures IsSimulated(ticker, bars, entry, rules, trade)
  {
    assert forall k': nat :: FirstExit(bars, entry, k', rules) ==> k' == k;
    assert !NoExit(bars, entry, rules);
  }

  method SimulateTrade(ticker: string, bars: seq<Bar>, entry: nat, rules: Rules)
    returns (trade: Trade)
    requires entry < |bars|
    requires EntryCost(bars, entry, rules) != 0.0
    ensures IsSimulated(ticker, bars, entry, rules, trade)
  {
    var price := EntryPrice(bars, entry, rules);
    var stop, target := StopPrice(price, rules), TargetPrice(price, rules);
    var trailingActive, highest := false, price;
    for k := entry to |bars|
      invariant highest == if k == entry then price else HighestUpTo(bars, entry, k - 1, price)
      invariant trailingActive ==>
                  k > entry && highest >= Scaled(price, 1.0 + rules.activation)
      invariant forall j :: entry <= j < k ==> RuleAt(bars, entry, j, rules).None?
    {
      var bar := bars[k];
      highest := MaxReal(highest, bar.high);
      if bar.low <= stop {
        trade := TradeAt(ticker, bars, entry, k, stop, StopLoss, rules);
        FirstExitDecides(ticker, bars, entry, k, rules, trade);
        return;
      }
      if bar.high >= target {
        trade := TradeAt(ticker, bars, entry, k, target, TakeProfit, rules);
        FirstExitDecides(ticker, bars, entry, k, rules, trade);
        return;
      }
      if highest >= Scaled(price, 1.0 + rules.activation) {
        trailingActive := true;
      }
      var trailing := Scaled(highest, 1.0 - rules.drop);
      if trailingActive && bar.low <= trailing {
        trade := TradeAt(ticker, bars, entry, k, trailing, TrailingStop, rules);
        FirstExitDecides(ticker, bars, entry, k, rules, trade);
        return;
      }
    }
    trade := TradeAt(ticker, bars, entry, |bars| - 1, bars[|bars| - 1].close, EndOfDay, rules);
  }

  // ---- the exit, said on the bars -----------------------------------------------

  /** `h` is the highest of the entry price and the highs from the entry bar to bar `k`. */
  ghost predicate IsHighest(bars: seq<Bar>, entry: nat, k: nat, price: real, h: real) {
    && k < |bars| && h >= price && (forall j :: entry <= j <= k ==> bars[j].high <= h)
    && (h == price || exists j :: entry <= j <= k && bars[j].high == h)
  }

  /** At bar `k` the trailing stop is armed and hit, `h` being the highest price so far. */
  ghost predicate Trails(bars: seq<Bar>, entry: nat, k: nat, price: real, rules: Rules, h: real) {
    && IsHighest(bars, entry, k, price, h) && h >= Scaled(price, 1.0 + rules.activation)
    && bars[k].low <= Scaled(h, 1.0 - rules.drop)
  }

  /** Bar `k` reaches the stop, the target or the trailing stop of a trade entered at `price`. */
  ghost predicate Leaves(bars: seq<Bar>, entry: nat, k: nat, price: real, rules: Rules) {
    && k < |bars|
    && (bars[k].low <= Scaled(price, 1.0 + rules.loss) || bars[k].high >= Scaled(price, 1.0 + rules.target)
        || exists h :: Trails(bars, entry, k, price, rules, h))
  }

  lemma {:induction false} HighestIsHighest(bars: seq<Bar>, entry: nat, k: nat, price: real)
    requires entry <= k < |bars|
    ensures IsHighest(bars, entry, k, price, HighestUpTo(bars, entry, k, price))
    decreases k
  {
    if k > entry {
      HighestIsHighest(bars, entry, k - 1, price);
      assert bars[k].high <= HighestUpTo(bars, entry, k, price);
    }
  }

  lemma OneHighest(bars: seq<Bar>, entry: nat, k: nat, price: real, h: real, h': real)
    requires entry <= k < |bars|
    requires IsHighest(bars, entry, k, price, h) && IsHighest(bars, entry, k, price, h')
    ensures h == h'
  {
  }

  /** Which rule a bar meets, and at which price: the stop before the target before the trailing stop. */
  lemma RuleStatedOnBars(bars: seq<Bar>, entry: nat, k: nat, rules: Rules)
    requires entry <= k < |bars|
    ensures var price := EntryPrice(bars, entry, rules);
            var rule := RuleAt(bars, entry, k, rules);
            && (rule.Some? <==> Leaves(bars, entry, k, price, rules))
            && (bars[k].low <= Scaled(price, 1.0 + rules.loss) ==>
                  rule == Some((StopLoss, Scaled(price, 1.0 + rules.loss))))
            && (bars[k].low > Scaled(price, 1.0 + rules.loss)
                && bars[k].high >= Scaled(price, 1.0 + rules.target) ==>
                  rule == Some((TakeProfit, Scaled(price, 1.0 + rules.target))))
            && (bars[k].low > Scaled(price, 1.0 + rules.loss)
                && bars[k].high < Scaled(price, 1.0 + rules.target) ==>
                  forall h :: Trails(bars, entry, k, price, rules, h) ==>
                                rule == Some((TrailingStop, Scaled(h, 1.0 - rules.drop))))
  {
    var price := EntryPrice(bars, entry, rules);
    var highest := HighestUpTo(bars, entry, k, price);
    HighestIsHighest(bars, entry, k, price);
    if highest >= Scaled(price, 1.0 + rules.activation) && bars[k].low <= Scaled(highest, 1.0 - rules.drop) {
      assert Trails(bars, entry, k, price, rules, highest);
    }
    forall h | Trails(bars, entry, k, price, rules, h) ensures h == highest {
      OneHighest(bars, entry, k, price, h, highest);
    }
  }

  /** The trade leaves at bar `k` for the given reason and price, said on the bars alone. */
  ghost predicate LeavesAt(
    bars: seq<Bar>, entry: nat, k: nat, rules: Rules, reason: Reason, raw: real)
    requires entry <= k < |bars|
  {
    var price := EntryPrice(bars, entry, rules);
    var stop, target := Scaled(price, 1.0 + rules.loss), Scaled(price, 1.0 + rules.target);
    && (forall j :: entry <= j < k ==> !Leaves(bars, entry, j, price, rules))
    && match reason
       case StopLoss => bars[k].low <= stop && raw == stop
       case TakeProfit => bars[k].low > stop && bars[k].high >= target && raw == target
       case TrailingStop =>
         && bars[k].low > stop && bars[k].high < target
         && exists h :: Trails(bars, entry, k, price, rules, h) && raw == Scaled(h, 1.0 - rules.drop)
       case EndOfDay =>
         k == |bars| - 1 && !Leaves(bars, entry, k, price, rules) && raw == bars[k].close
  }

  /** What is left of the exit price after commission, over what the entry cost with it, less one. */
  ghost predicate IsNetReturn(rate: real, exit: real, entry: real, commission: real) {
    && entry * (1.0 + commission) != 0.0
    && rate == exit * (1.0 - commission) / (entry * (1.0 + commission)) - 1.0
  }

  lemma NetReturnStated(exit: real, entry: real, commission: real)
    requires entry * (1.0 + commission) != 0.0
    ensures IsNetReturn(NetReturn(exit, entry, commission), exit, entry, commission)
  {
  }

  /** A trade from the entry bar to bar `k`, said on the bars and prices. */
  ghost predicate TradeStated(
    ticker: string, bars: seq<Bar>, entry: nat, k: nat, raw: real, rules: Rules, trade: Trade)
    requires entry < |bars| && k < |bars|
  {
    && trade.ticker == ticker
    && trade.entryTime == bars[entry].time && trade.exitTime == bars[k].time
    && trade.entryPrice == Scaled(bars[entry].open, 1.0 + rules.slippage)
    && trade.exitPrice == Scaled(raw, 1.0 - rules.slippage)
    && IsNetReturn(trade.returnRate, trade.exitPrice, trade.entryPrice, rules.commission)
    && trade.holdingMinutes == (bars[k].time - bars[entry].time) as real / 60.0
  }

  lemma TradeAtStated(
    ticker: string, bars: seq<Bar>, entry: nat, k: nat, raw: real, reason: Reason, rules: Rules)
    requires entry < |bars| && k < |bars| && EntryCost(bars, entry, rules) != 0.0
    ensures TradeStated(
              ticker, bars, entry, k, raw, rules, TradeAt(ticker, bars, entry, k, raw, reason, rules))
  {
    NetReturnStated(
      Scaled(raw, 1.0 - rules.slippage), EntryPrice(bars, entry, rules), rules.commission);
  }

  lemma FirstExitStated(bars: seq<Bar>, entry: nat, k: nat, rules: Rules)
    requires FirstExit(bars, entry, k, rules)
    ensures var (reason, raw) := RuleAt(bars, entry, k, rules).value;
            LeavesAt(bars, entry, k, rules, reason, raw)
  {
    var price := EntryPrice(bars, entry, rules);
    forall j | entry <= j <= k
      ensures RuleAt(bars, entry, j, rules).Some? <==> Leaves(bars, entry, j, price, rules)
    {
      RuleStatedOnBars(bars, entry, j, rules);
    }
    RuleStatedOnBars(bars, entry, k, rules);
  }

  lemma NoExitStated(bars: seq<Bar>, entry: nat, rules: Rules)
    requires entry < |bars| && NoExit(bars, entry, rules)
    ensures LeavesAt(bars, entry, |bars| - 1, rules, EndOfDay, bars[|bars| - 1].close)
  {
    var price := EntryPrice(bars, entry, rules);
    forall j | entry <= j < |bars| ensures !Leaves(bars, entry, j, price, rules) {
      RuleStatedOnBars(bars, entry, j, rules);
    }
  }

  /**
   * A simulated trade enters at the entry bar's opening price with slippage. It leaves at the first
   * bar that reaches the stop, the target or the trailing stop, which count in this order where a
   * bar reaches several, or else at the last close; and its return is that of the two prices after
   * commission.
   */
  lemma TradeStatedOnBars(
    ticker: string, bars: seq<Bar>, entry: nat, rules: Rules, trade: Trade) returns (k: nat, raw: real)
    requires entry < |bars| && EntryCost(bars, entry, rules) != 0.0
    requires IsSimulated(ticker, bars, entry, rules, trade)
    ensures entry <= k < |bars| && LeavesAt(bars, entry, k, rules, trade.reason, raw)
    ensures TradeStated(ticker, bars, entry, k, raw, rules, trade)
  {
    if NoExit(bars, entry, rules) {
      k, raw := |bars| - 1, bars[|bars| - 1].close;
      NoExitStated(bars, entry, rules);
    } else {
      k := FindFirst(bars, entry, rules);
      raw := RuleAt(bars, entry, k, rules).value.1;
      FirstExitStated(bars, entry, k, rules);
    }
    TradeAtStated(ticker, bars, entry, k, raw, trade.reason, rules);
  }

  // ---- no look-ahead ---------------------------------------------------------

  lemma {:induction false} SamePrefixSameHighest(
    a: seq<Bar>, b: seq<Bar>, entry: nat, k: nat, price: real)
    requires entry <= k < |a| && k < |b| && a[..k + 1] == b[..k + 1]
    ensures HighestUpTo(a, entry, k, price) == HighestUpTo(b, entry, k, price)
    decreases k
  {
    assert a[k] == a[..k + 1][k] == b[..k + 1][k] == b[k];
    if k > entry {
      assert a[..k] == a[..k + 1][..k] == b[..k + 1][..k] == b[..k];
      SamePrefixSameHighest(a, b, entry, k - 1, price);
    }
  }

  lemma SamePrefixSameRule(a: seq<Bar>, b: seq<Bar>, entry: nat, k: nat, rules: Rules)
    requires entry <= k < |a| && k < |b| && a[..k + 1] == b[..k + 1]
    ensures RuleAt(a, entry, k, rules) == RuleAt(b, entry, k, rules)
  {
    assert a[k] == a[..k + 1][k] == b[..k + 1][k] == b[k];
    assert a[entry] == a[..k + 1][entry] == b[..k + 1][entry] == b[entry];
    SamePrefixSameHighest(a, b, entry, k, EntryPrice(a, entry, rules));
  }

  /** A trade that leaves before the end of the day is untouched by whatever follows its exit bar. */
  lemma TradeIgnoresLaterBars(
    ticker: string, a: seq<Bar>, b: seq<Bar>, entry: nat, k: nat, rules: Rules,
    left: Trade, right: Trade)
    requires FirstExit(a, entry, k, rules) && k < |b| && a[..k + 1] == b[..k + 1]
    requires EntryCost(a, entry, rules) != 0.0
    requires EntryCost(b, entry, rules) != 0.0
    requires IsSimulated(ticker, a, entry, rules, left)
    requires IsSimulated(ticker, b, entry, rules, right)
    ensures left == right && !left.reason.EndOfDay?
  {
    forall j | entry <= j <= k ensures RuleAt(a, entry, j, rules) == RuleAt(b, entry, j, rules) {
      assert a[..j + 1] == a[..k + 1][..j + 1] == b[..k + 1][..j + 1] == b[..j + 1];
      SamePrefixSameRule(a, b, entry, j, rules);
    }
    assert FirstExit(b, entry, k, rules);
    assert a[k] == a[..k + 1][k] == b[..k + 1][k] == b[k];
    assert a[entry] == a[..k + 1][entry] == b[..k + 1][entry] == b[entry];
  }

  // ---- bounds on the net return -----------------------------------------------

  ghost predicate SaneRules(rules: Rules) {
    && 0.0 <= rules.slippage < 1.0 && 0.0 <= rules.commission < 1.0
    && rules.loss <= rules.target && rules.target > 0.0 && rules.drop >= 0.0
  }

  /** The net return of a fill at `1 + rate` times the entry price. */
  function RateAfterCosts(rate: real, rules: Rules): real
    requires 1.0 + rules.commission != 0.0
  {
    (1.0 + rate) * (1.0 - rules.slippage) * (1.0 - rules.commission) / (1.0 + rules.commission) - 1.0
  }

  lemma Regroup(p: real, a: real, b: real, c: real)
    ensures Scaled(Scaled(p, a), b) * c == p * (a * b * c)
  {
    assert p * a * b == p * (a * b);
    assert p * (a * b) * c == p * (a * b * c);
  }

  lemma NetOfRate(price: real, rate: real, rules: Rules)
    requires SaneRules(rules) && price > 0.0
    ensures price * (1.0 + rules.commission) > 0.0
    ensures NetReturn(Scaled(Scaled(price, 1.0 + rate), 1.0 - rules.slippage), price, rules.commission)
         == RateAfterCosts(rate, rules)
  {
    var k := 1.0 + rules.commission;
    var numerator := (1.0 + rate) * (1.0 - rules.slippage) * (1.0 - rules.commission);
    Regroup(price, 1.0 + rate, 1.0 - rules.slippage, 1.0 - rules.commission);
    CancelFactor(price, numerator, k);
  }

  lemma ScaledMonotone(a: real, b: real, factor: real)
    requires a <= b && factor >= 0.0
    ensures Scaled(a, factor) <= Scaled(b, factor)
  {
    ProductMonotone(a, b, factor);
  }

  lemma NetReturnMonotone(x: real, y: real, price: real, commission: real)
    requires x <= y && price > 0.0 && 0.0 <= commission < 1.0
    ensures price * (1.0 + commission) > 0.0
    ensures NetReturn(x, price, commission) <= NetReturn(y, price, commission)
  {
    var c, k := 1.0 - commission, 1.0 + commission;
    FractionMonotone(x, y, c, price, k);
  }

  lemma NetMonotone(raw: real, raw': real, price: real, rules: Rules)
    requires SaneRules(rules) && price > 0.0 && raw <= raw'
    ensures price * (1.0 + rules.commission) > 0.0
    ensures NetReturn(Scaled(raw, 1.0 - rules.slippage), price, rules.commission)
         <= NetReturn(Scaled(raw', 1.0 - rules.slippage), price, rules.commission)
  {
    var x, y := Scaled(raw, 1.0 - rules.slippage), Scaled(raw', 1.0 - rules.slippage);
    assert x <= y by { ScaledMonotone(raw, raw', 1.0 - rules.slippage); }
    NetReturnMonotone(x, y, price, rules.commission);
  }

  /** Until some bar reaches the target, the highest price since entry stays below it. */
  lemma {:induction false} HighestBelowTarget(bars: seq<Bar>, entry: nat, k: nat, rules: Rules)
    requires entry <= k < |bars| && SaneRules(rules) && EntryPrice(bars, entry, rules) > 0.0
    requires forall j :: entry <= j <= k ==>
               bars[j].high < TargetPrice(EntryPrice(bars, entry, rules), rules)
    ensures var price := EntryPrice(bars, entry, rules);
            price <= HighestUpTo(bars, entry, k, price) < TargetPrice(price, rules)
    decreases k
  {
    var price := EntryPrice(bars, entry, rules);
    assert price * (1.0 + rules.target) > price * 1.0;
    if k > entry {
      HighestBelowTarget(bars, entry, k - 1, rules);
    }
  }

  /** A rule fires at a price between the stop and the target, whichever rule it is. */
  lemma RulePriceWithinBand(bars: seq<Bar>, entry: nat, k: nat, rules: Rules)
    requires FirstExit(bars, entry, k, rules) && SaneRules(rules)
    requires EntryPrice(bars, entry, rules) > 0.0
    ensures var price := EntryPrice(bars, entry, rules);
            StopPrice(price, rules) <= RuleAt(bars, entry, k, rules).value.1 <= TargetPrice(price, rules)
  {
    var price := EntryPrice(bars, entry, rules);
    assert price * (1.0 + rules.loss) <= price * (1.0 + rules.target);
    if RuleAt(bars, entry, k, rules).value.0.TrailingStop? {
      forall j | entry <= j <= k ensures bars[j].high < TargetPrice(price, rules) {
        assert j < k ==> RuleAt(bars, entry, j, rules).None?;
      }
      HighestBelowTarget(bars, entry, k, rules);
      var highest := HighestUpTo(bars, entry, k, price);
      assert highest * (1.0 - rules.drop) <= highest * 1.0;
    }
  }

  ghost predicate WithinCosts(rate: real, rules: Rules)
    requires SaneRules(rules)
  {
    RateAfterCosts(rules.loss, rules) <= rate <= RateAfterCosts(rules.target, rules)
  }

  lemma BandGivesRate(price: real, raw: real, rules: Rules)
    requires SaneRules(rules) && price > 0.0
    ensures price * (1.0 + rules.commission) > 0.0
    ensures RateAfterCosts(rules.loss, rules)
              <= NetReturn(Scaled(raw, 1.0 - rules.slippage), price, rules.commission)
            <==> StopPrice(price, rules) <= raw
    ensures NetReturn(Scaled(raw, 1.0 - rules.slippage), price, rules.commission)
              <= RateAfterCosts(rules.target, rules)
            <==> raw <= TargetPrice(price, rules)
  {
    NetOfRate(price, rules.loss, rules);
    NetOfRate(price, rules.target, rules);
    NetCompares(StopPrice(price, rules), raw, price, rules);
    NetCompares(raw, TargetPrice(price, rules), price, rules);
  }

  /** Net returns compare as the prices do. */
  lemma NetCompares(raw: real, raw': real, price: real, rules: Rules)
    requires SaneRules(rules) && price > 0.0
    ensures price * (1.0 + rules.commission) > 0.0
    ensures NetReturn(Scaled(raw, 1.0 - rules.slippage), price, rules.commission)
              <= NetReturn(Scaled(raw', 1.0 - rules.slippage), price, rules.commission)
            <==> raw <= raw'
  {
    if raw <= raw' {
      NetMonotone(raw, raw', price, rules);
    } else {
      var kept := 1.0 - rules.slippage;
      ScaledStrict(raw', raw, kept);
      NetReturnStrict(Scaled(raw', kept), Scaled(raw, kept), price, rules.commission);
    }
  }

  lemma ScaledStrict(a: real, b: real, factor: real)
    requires a < b && factor > 0.0
    ensures Scaled(a, factor) < Scaled(b, factor)
  {
    ProductPositive(b - a, factor);
    assert (b - a) * factor == Scaled(b, factor) - Scaled(a, factor);
  }

  lemma NetReturnStrict(x: real, y: real, price: real, commission: real)
    requires x < y && price > 0.0 && 0.0 <= commission < 1.0
    ensures price * (1.0 + commission) > 0.0
    ensures NetReturn(x, price, commission) < NetReturn(y, price, commission)
  {
    ProductPositive(price, 1.0 + commission);
    ScaledStrict(x, y, 1.0 - commission);
    QuotientStrict(x * (1.0 - commission), y * (1.0 - commission), price * (1.0 + commission));
  }

  /** The trade was still open at the end of the day, and the last close lies outside the band. */
  predicate ClosesOutside(bars: seq<Bar>, entry: nat, rules: Rules, trade: Trade)
    requires entry < |bars|
  {
    var price, close := EntryPrice(bars, entry, rules), bars[|bars| - 1].close;
    trade.reason.EndOfDay? && !(StopPrice(price, rules) <= close <= TargetPrice(price, rules))
  }

  /**
   * The net return of a trade lies between the stop's and the target's return after costs if and
   * only if the trade does not end at a last close beyond stop or target. No rule exit ever leaves
   * the band, and neither does a last close between its bar's low and high.
   */
  lemma TradeReturnIsBounded(
    ticker: string, bars: seq<Bar>, entry: nat, rules: Rules, trade: Trade)
    requires entry < |bars| && SaneRules(rules) && bars[entry].open > 0.0
    requires EntryCost(bars, entry, rules) != 0.0
    requires IsSimulated(ticker, bars, entry, rules, trade)
    ensures WithinCosts(trade.returnRate, rules) <==> !ClosesOutside(bars, entry, rules, trade)
    ensures bars[|bars| - 1].low <= bars[|bars| - 1].close <= bars[|bars| - 1].high ==>
              !ClosesOutside(bars, entry, rules, trade)
    ensures bars[|bars| - 1].low <= bars[|bars| - 1].close ==>
              trade.returnRate >= RateAfterCosts(rules.loss, rules)
  {
    var price := EntryPrice(bars, entry, rules);
    assert bars[entry].open * (1.0 + rules.slippage) > 0.0;
    if NoExit(bars, entry, rules) {
      var last := |bars| - 1;
      assert RuleAt(bars, entry, last, rules).None?;
      BandGivesRate(price, bars[last].close, rules);
    } else {
      var k := FindFirst(bars, entry, rules);
      RulePriceWithinBand(bars, entry, k, rules);
      BandGivesRate(price, RuleAt(bars, entry, k, rules).value.1, rules);
    }
  }

  /** Whatever the bars, a trade at positive prices never loses the whole stake. */
  lemma TradeNeverLosesAll(
    ticker: string, bars: seq<Bar>, entry: nat, rules: Rules, trade: Trade)
    requires entry < |bars| && SaneRules(rules) && rules.loss > -1.0
    requires bars[entry].open > 0.0 && bars[|bars| - 1].close > 0.0
    requires EntryCost(bars, entry, rules) != 0.0
    requires IsSimulated(ticker, bars, entry, rules, trade)
    ensures trade.returnRate > -1.0
  {
    var price := EntryPrice(bars, entry, rules);
    assert bars[entry].open * (1.0 + rules.slippage) > 0.0;
    if NoExit(bars, entry, rules) {
      PositiveExit(bars[|bars| - 1].close, price, rules);
    } else {
      var k := FindFirst(bars, entry, rules);
      RulePriceWithinBand(bars, entry, k, rules);
      ScaledPositive(price, 1.0 + rules.loss);
      PositiveExit(RuleAt(bars, entry, k, rules).value.1, price, rules);
    }
  }

  lemma ScaledPositive(price: real, factor: real)
    requires price > 0.0 && factor > 0.0
    ensures Scaled(price, factor) > 0.0
  {
    ProductPositive(price, factor);
  }

  lemma PositiveExit(raw: real, price: real, rules: Rules)
    requires SaneRules(rules) && price > 0.0 && raw > 0.0
    ensures price * (1.0 + rules.commission) > 0.0
    ensures NetReturn(Scaled(raw, 1.0 - rules.slippage), price, rules.commission) > -1.0
  {
    var exit := Scaled(raw, 1.0 - rules.slippage);
    ProductPositive(raw, 1.0 - rules.slippage);
    ProductPositive(exit, 1.0 - rules.commission);
    ProductPositive(price, 1.0 + rules.commission);
    QuotientPositive(exit * (1.0 - rules.commission), price * (1.0 + rules.commission));
  }

  lemma FindFirst(bars: seq<Bar>, entry: nat, rules: Rules) returns (k: nat)
    requires entry < |bars| && !NoExit(bars, entry, rules)
    ensures FirstExit(bars, entry, k, rules)
  {
    k := entry;
    while RuleAt(bars, entry, k, rules).None?
      invariant entry <= k < |bars|
      invariant forall j :: entry <= j < k ==> RuleAt(bars, entry, j, rules).None?
      decreases |bars| - k
    {
      k := k + 1;
    }
  }

  /** Costs can never take more than the whole stake while the stop loses less than everything. */
  lemma WorstRateAboveRuin(rules: Rules)
    requires SaneRules(rules) && rules.loss > -1.0
    ensures RateAfterCosts(rules.loss, rules) > -1.0
  {
    FourPositive(
      1.0 + rules.loss, 1.0 - rules.slippage, 1.0 - rules.commission, 1.0 + rules.commission);
  }
}
