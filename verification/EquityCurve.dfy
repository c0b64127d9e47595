/** Compounding one trade a day into an equity curve, with its running-peak drawdown. */
module EquityCurve {
  import opened Common
  import opened RealFacts
  import opened TradeSimulation

  datatype Result = Result(
    totalReturn: real, averageReturn: real, winRate: real, maxDrawdown: real, tradeCount: nat,
    zeroTradeDays: int, stopLossCount: nat, takeProfitCount: nat, trailingStopCount: nat,
    endOfDayCount: nat, averageHolding: real, maxHolding: real, trades: seq<Trade>)

  // ---- specification ---------------------------------------------------------

  function Grown(equity: real, fraction: real, rate: real): real { equity + equity * fraction * rate }

  function Fall(equity: real, peak: real): real
    requires peak != 0.0
  {
    equity / peak - 1.0
  }

  /** The trades of the days that have one, in day order. */
  function TradesOn(days: seq<int>, tradeOn: int -> Option<Trade>): seq<Trade> {
    if days == [] then []
    else
      var front := TradesOn(days[..|days| - 1], tradeOn);
      var last := tradeOn(days[|days| - 1]);
      if last.Some? then front + [last.value] else front
  }

  lemma TradesOnStep(days: seq<int>, tradeOn: int -> Option<Trade>, i: nat)
    requires i < |days|
    ensures TradesOn(days[..i + 1], tradeOn)
         == TradesOn(days[..i], tradeOn)
            + if tradeOn(days[i]).Some? then [tradeOn(days[i]).value] else []
  {
    assert days[..i + 1][..i] == days[..i];
  }

  function RateOf(t: Trade): real { t.returnRate }

  /** Equity before any trade and after each one. */
  function Curve(initial: real, fraction: real, trades: seq<Trade>): (curve: seq<real>)
    ensures |curve| == |trades| + 1
  {
    if trades == [] then [initial]
    else
      var front := Curve(initial, fraction, trades[..|trades| - 1]);
      front + [Grown(front[|front| - 1], fraction, trades[|trades| - 1].returnRate)]
  }

  function Last(curve: seq<real>): real
    requires curve != []
  {
    curve[|curve| - 1]
  }

  function Peak(curve: seq<real>): real
    requires curve != []
  {
    if |curve| == 1 then curve[0] else MaxReal(Peak(curve[..|curve| - 1]), Last(curve))
  }

  /** What the loop keeps: the deepest fall below the running peak. */
  function RunningDrawdown(curve: seq<real>): real
    requires curve != []
  {
    if |curve| == 1 then 0.0
    else
      var before := RunningDrawdown(curve[..|curve| - 1]);
      if Peak(curve) > 0.0 then MinReal(before, Fall(Last(curve), Peak(curve))) else before
  }

  function HoldingOf(t: Trade): real { t.holdingMinutes }

  function LongestHolding(trades: seq<Trade>): real {
    if trades == [] then 0.0
    else if |trades| == 1 then trades[0].holdingMinutes
    else MaxReal(LongestHolding(trades[..|trades| - 1]), trades[|trades| - 1].holdingMinutes)
  }

  function Same(x: real): real { x }

  function Average(values: seq<real>): real {
    if values == [] then 0.0 else SumBy(Same, values) / |values| as real
  }

  function ExitCount(trades: seq<Trade>, reason: Reason): nat {
    CountBy((t: Trade) => t.reason == reason, trades)
  }

  function Summarize(
    trades: seq<Trade>, totalReturn: real, maxDrawdown: real, zeroTradeDays: int): Result
  {
    Result(
      totalReturn, Average(Map(RateOf, trades)),
      Average(Map((t: Trade) => if t.returnRate > 0.0 then 1.0 else 0.0, trades)), maxDrawdown,
      |trades|, zeroTradeDays, ExitCount(trades, StopLoss), ExitCount(trades, TakeProfit),
      ExitCount(trades, TrailingStop), ExitCount(trades, EndOfDay),
      Average(Map(HoldingOf, trades)), LongestHolding(trades), trades)
  }

  /** What a run over `days`, ascending and distinct, reports. */
  function Report(
    days: seq<int>, tradeOn: int -> Option<Trade>, fraction: real, initial: real): Result
  {
    var trades := TradesOn(days, tradeOn);
    var curve := Curve(initial, fraction, trades);
    Summarize(
      trades, if initial != 0.0 then Fall(Last(curve), initial) else 0.0, RunningDrawdown(curve),
      |days| - |trades|)
  }

  // ---- total return is the product of the trades -------------------------------

  function FactorOf(fraction: real, rate: real): real { 1.0 + fraction * rate }

  function Factor(fraction: real, t: Trade): real { FactorOf(fraction, t.returnRate) }

  function Product(fraction: real, trades: seq<Trade>): real {
    if trades == [] then 1.0
    else Product(fraction, trades[..|trades| - 1]) * Factor(fraction, trades[|trades| - 1])
  }

  lemma GrownIsScaled(equity: real, fraction: real, t: Trade)
    ensures Grown(equity, fraction, t.returnRate) == equity * Factor(fraction, t)
  {
  }

  lemma Associate(a: real, b: real, c: real)
    ensures (a * b) * c == a * (b * c)
  {
  }

  lemma {:induction false} CurveIsProduct(initial: real, fraction: real, trades: seq<Trade>)
    ensures Last(Curve(initial, fraction, trades)) == initial * Product(fraction, trades)
  {
    if trades != [] {
      var front, last := trades[..|trades| - 1], trades[|trades| - 1];
      CurveIsProduct(initial, fraction, front);
      GrownIsScaled(Last(Curve(initial, fraction, front)), fraction, last);
      Associate(initial, Product(fraction, front), Factor(fraction, last));
    }
  }

  /** The reported total return is the product of the single-trade factors, less one. */
  lemma TotalReturnIsProduct(
    days: seq<int>, tradeOn: int -> Option<Trade>, fraction: real, initial: real)
    requires initial != 0.0
    ensures Report(days, tradeOn, fraction, initial).totalReturn
         == Product(fraction, TradesOn(days, tradeOn)) - 1.0
  {
    CurveReturn(initial, fraction, TradesOn(days, tradeOn));
  }

  lemma CurveReturn(initial: real, fraction: real, trades: seq<Trade>)
    requires initial != 0.0
    ensures Fall(Last(Curve(initial, fraction, trades)), initial) == Product(fraction, trades) - 1.0
  {
    CurveIsProduct(initial, fraction, trades);
    FallOfProduct(Last(Curve(initial, fraction, trades)), initial, Product(fraction, trades));
  }

  lemma FallOfProduct(equity: real, initial: real, p: real)
    requires initial != 0.0 && equity == initial * p
    ensures Fall(equity, initial) == p - 1.0
  {
    QuotientCancels(initial, p);
  }

  // ---- equity never reaches zero -----------------------------------------------

  function Power(base: real, n: nat): real { if n == 0 then 1.0 else Power(base, n - 1) * base }

  lemma {:induction false} PowerPositive(base: real, n: nat)
    requires base > 0.0
    ensures Power(base, n) > 0.0
  {
    if n > 0 {
      PowerPositive(base, n - 1);
      ProductPositive(Power(base, n - 1), base);
    }
  }

  /** What `k` trades of the given factor make of the initial equity. */
  function Compounded(initial: real, base: real, k: nat): real { initial * Power(base, k) }

  lemma CompoundedPositive(initial: real, base: real, k: nat)
    requires initial > 0.0 && base > 0.0
    ensures Compounded(initial, base, k) > 0.0
  {
    PowerPositive(base, k);
    ProductPositive(initial, Power(base, k));
  }

  lemma StepAboveWorst(
    equity: real, initial: real, k: nat, fraction: real, t: Trade, worst: real)
    requires k > 0 && 0.0 <= fraction && FactorOf(fraction, worst) > 0.0
    requires equity >= Compounded(initial, FactorOf(fraction, worst), k - 1) > 0.0
    requires t.returnRate >= worst
    ensures Grown(equity, fraction, t.returnRate)
            >= Compounded(initial, FactorOf(fraction, worst), k)
  {
    var base := FactorOf(fraction, worst);
    GrownIsScaled(equity, fraction, t);
    OneTradeAboveWorst(equity, Compounded(initial, base, k - 1), fraction, t, worst);
    Associate(initial, Power(base, k - 1), base);
  }

  /** Equity after k trades is at least the initial equity shrunk k times by the worst trade. */
  lemma {:induction false} CurveAboveWorst(
    initial: real, fraction: real, trades: seq<Trade>, worst: real, k: nat)
    requires initial > 0.0 && 0.0 <= fraction && FactorOf(fraction, worst) > 0.0
    requires forall t :: t in trades ==> t.returnRate >= worst
    requires k <= |trades|
    ensures Curve(initial, fraction, trades)[k]
            >= Compounded(initial, FactorOf(fraction, worst), k) > 0.0
  {
    CompoundedPositive(initial, FactorOf(fraction, worst), k);
    if trades != [] {
      var front, last := trades[..|trades| - 1], trades[|trades| - 1];
      var before := Curve(initial, fraction, front);
      if k < |trades| {
        CurveAboveWorst(initial, fraction, front, worst, k);
      } else {
        CurveAboveWorst(initial, fraction, front, worst, k - 1);
        assert last in trades;
        StepAboveWorst(Last(before), initial, k, fraction, last, worst);
      }
    }
  }

  lemma OneTradeAboveWorst(equity: real, floor: real, fraction: real, t: Trade, worst: real)
    requires equity >= floor > 0.0 && 0.0 <= fraction && FactorOf(fraction, worst) > 0.0
    requires t.returnRate >= worst
    ensures equity * Factor(fraction, t) >= floor * FactorOf(fraction, worst)
  {
    var base := FactorOf(fraction, worst);
    assert fraction * worst <= fraction * t.returnRate by {
      ProductMonotone(worst, t.returnRate, fraction);
    }
    ProductMonotone(base, Factor(fraction, t), equity);
    ProductMonotone(floor, equity, base);
  }

  // ---- the drawdown is the worst fall from any earlier point ---------------------

  ghost predicate AllPositive(curve: seq<real>) {
    forall i :: 0 <= i < |curve| ==> curve[i] > 0.0
  }

  /** `d` is the least fall from a point of the curve to the same or a later point. */
  ghost predicate IsWorstFall(curve: seq<real>, d: real)
    requires AllPositive(curve)
  {
    && (forall i, j :: 0 <= i <= j < |curve| ==> d <= Fall(curve[j], curve[i]))
    && (exists i, j :: 0 <= i <= j < |curve| && d == Fall(curve[j], curve[i]))
  }

  lemma {:induction false} PeakIsHighest(curve: seq<real>)
    requires curve != []
    ensures forall i :: 0 <= i < |curve| ==> curve[i] <= Peak(curve)
    ensures exists i :: 0 <= i < |curve| && curve[i] == Peak(curve)
  {
    if |curve| == 1 {
      assert curve[0] == Peak(curve);
    } else {
      var front := curve[..|curve| - 1];
      PeakIsHighest(front);
      var i :| 0 <= i < |front| && front[i] == Peak(front);
      assert curve[i] == front[i];
      assert curve[|curve| - 1] == Last(curve);
      assert curve[if Peak(front) >= Last(curve) then i else |curve| - 1] == Peak(curve);
      forall j | 0 <= j < |curve| ensures curve[j] <= Peak(curve) {
        if j < |front| { assert front[j] == curve[j]; }
      }
    }
  }

  lemma FallFromHigherIsDeeper(equity: real, low: real, high: real)
    requires equity > 0.0 && 0.0 < low <= high
    ensures Fall(equity, high) <= Fall(equity, low)
  {
    var a, b := equity / high, equity / low;
    assert a * high == equity && b * low == equity;
    QuotientPositive(equity, high);
    ProductMonotone(low, high, a);
    assert a > b ==> a * low > b * low;
  }

  /** The last point has fallen furthest from the running peak. */
  lemma LastFall(curve: seq<real>, i: nat)
    requires i < |curve| && AllPositive(curve)
    ensures Peak(curve) > 0.0 && Fall(Last(curve), Peak(curve)) <= Fall(Last(curve), curve[i])
    ensures -1.0 < Fall(Last(curve), Peak(curve))
  {
    PeakIsHighest(curve);
    FallFromHigherIsDeeper(Last(curve), curve[i], Peak(curve));
    QuotientPositive(Last(curve), Peak(curve));
  }

  lemma {:induction false} NoFallIsDeeper(curve: seq<real>, i: nat, j: nat)
    requires i <= j < |curve| && AllPositive(curve)
    ensures RunningDrawdown(curve) <= Fall(curve[j], curve[i])
    ensures -1.0 < RunningDrawdown(curve) <= 0.0
  {
    LastFall(curve, i);
    if |curve| == 1 {
      QuotientCancels(curve[0], 1.0);
    } else {
      var front := curve[..|curve| - 1];
      NoFallIsDeeper(front, if j < |front| then i else 0, if j < |front| then j else 0);
    }
  }

  lemma {:induction false} SomeFallIsReached(curve: seq<real>) returns (i: nat, j: nat)
    requires curve != [] && AllPositive(curve)
    ensures i <= j < |curve| && RunningDrawdown(curve) == Fall(curve[j], curve[i])
  {
    if |curve| == 1 {
      i, j := 0, 0;
      QuotientCancels(curve[0], 1.0);
    } else {
      i, j := SomeFallIsReached(curve[..|curve| - 1]);
      LastFall(curve, 0);
      if RunningDrawdown(curve) == Fall(Last(curve), Peak(curve)) {
        PeakIsHighest(curve);
        var p :| 0 <= p < |curve| && curve[p] == Peak(curve);
        i, j := p, |curve| - 1;
      }
    }
  }

  lemma RunningDrawdownIsWorstFall(curve: seq<real>)
    requires curve != [] && AllPositive(curve)
    ensures IsWorstFall(curve, RunningDrawdown(curve))
    ensures -1.0 < RunningDrawdown(curve) <= 0.0
  {
    forall i, j | 0 <= i <= j < |curve| ensures RunningDrawdown(curve) <= Fall(curve[j], curve[i]) {
      NoFallIsDeeper(curve, i, j);
    }
    NoFallIsDeeper(curve, 0, 0);
    var i, j := SomeFallIsReached(curve);
  }

  /** Trades that never lose the whole stake leave a positive equity. */
  lemma {:induction false} CurvePositive(initial: real, fraction: real, trades: seq<Trade>)
    requires initial > 0.0 && 0.0 <= fraction <= 1.0
    requires forall t :: t in trades ==> t.returnRate > -1.0
    ensures AllPositive(Curve(initial, fraction, trades))
  {
    if trades != [] {
      var front, last := trades[..|trades| - 1], trades[|trades| - 1];
      CurvePositive(initial, fraction, front);
      var equity := Last(Curve(initial, fraction, front));
      assert last in trades && equity > 0.0;
      WorstFactorPositive(fraction, last.returnRate);
      GrownIsScaled(equity, fraction, last);
      ProductPositive(equity, Factor(fraction, last));
    }
  }

  /**
   * A run whose trades never lose the whole stake, with an exposure in [0, 1], keeps positive equity
   * and reports as its drawdown the worst fall from any earlier equity, which lies in (-1, 0].
   */
  lemma DrawdownIsWorstFall(
    days: seq<int>, tradeOn: int -> Option<Trade>, fraction: real, initial: real)
    requires initial > 0.0 && 0.0 <= fraction <= 1.0
    requires forall t :: t in TradesOn(days, tradeOn) ==> t.returnRate > -1.0
    ensures var curve := Curve(initial, fraction, TradesOn(days, tradeOn));
            var reported := Report(days, tradeOn, fraction, initial).maxDrawdown;
            && AllPositive(curve) && IsWorstFall(curve, reported) && -1.0 < reported <= 0.0
  {
    var trades := TradesOn(days, tradeOn);
    CurvePositive(initial, fraction, trades);
    RunningDrawdownIsWorstFall(Curve(initial, fraction, trades));
  }

  lemma WorstFactorPositive(fraction: real, worst: real)
    requires 0.0 <= fraction <= 1.0 && worst > -1.0
    ensures FactorOf(fraction, worst) > 0.0
  {
    if worst >= 0.0 {
      ProductMonotone(0.0, fraction, worst);
    } else {
      ProductMonotone(fraction, 1.0, -worst);
    }
  }

  /** Every trade that a day produces is counted under exactly one exit reason. */
  lemma {:induction false} ExitCountsPartition(trades: seq<Trade>)
    ensures ExitCount(trades, StopLoss) + ExitCount(trades, TakeProfit)
          + ExitCount(trades, TrailingStop) + ExitCount(trades, EndOfDay) == |trades|
  {
    if trades != [] {
      ExitCountsPartition(trades[1..]);
    }
  }
}
