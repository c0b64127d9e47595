/** The chart score: four signals over the closing prices, none of which depends on the price unit. */
module ChartScoring {
  import opened Common
  import opened RealFacts

  function Times(k: real, x: real): real { k * x }

  lemma TimesMonotone(k: real, a: real, b: real)
    requires k >= 0.0 && a <= b
    ensures Times(k, a) <= Times(k, b)
  {
    ProductMonotone(a, b, k);
  }

  lemma TimesPositive(k: real, x: real)
    requires k > 0.0 && x > 0.0
    ensures Times(k, x) > 0.0
  {
  }

  lemma TimesDifference(k: real, a: real, b: real)
    ensures Times(k, a) - Times(k, b) == Times(k, a - b)
  {
  }

  /** Every price multiplied by `k`. */
  function Scaled(k: real, s: seq<real>): (r: seq<real>)
    ensures |r| == |s| && forall i :: 0 <= i < |s| ==> r[i] == Times(k, s[i])
  {
    seq(|s|, i requires 0 <= i < |s| => Times(k, s[i]))
  }

  // ---- averages ------------------------------------------------------------------

  function Itself(x: real): real { x }

  function AverageBy(f: real -> real, s: seq<real>): real
    requires s != []
  {
    SumBy(f, s) / |s| as real
  }

  function Mean(s: seq<real>): real
    requires s != []
  {
    AverageBy(Itself, s)
  }

  function LastOf(s: seq<real>, n: nat): seq<real>
    requires n <= |s|
  {
    s[|s| - n..]
  }

  function Front(s: seq<real>): seq<real>
    requires s != []
  {
    s[..|s| - 1]
  }

  // ---- exponential averages ----------------------------------------------------------

  function Multiplier(period: nat): (m: real)
    ensures 0.0 < m
    ensures period >= 1 ==> m <= 1.0
  {
    2.0 / (period + 1) as real
  }

  function Blend(value: real, ema: real, m: real): real {
    Times(m, value) + Times(1.0 - m, ema)
  }

  /** The average after the last of the values; it starts at the first of them. */
  function Ema(values: seq<real>, m: real): real
    requires values != []
  {
    if |values| == 1 then values[0] else Blend(values[|values| - 1], Ema(Front(values), m), m)
  }

  ghost predicate IsEmaSeries(series: seq<real>, values: seq<real>, m: real) {
    && |series| == |values|
    && forall i :: 0 <= i < |values| ==> series[i] == Ema(values[..i + 1], m)
  }

  method EmaSeries(values: seq<real>, period: nat) returns (series: seq<real>)
    requires values != []
    ensures IsEmaSeries(series, values, Multiplier(period))
  {
    var m := Multiplier(period);
    var ema := values[0];
    series := [ema];
    for i := 1 to |values|
      invariant |series| == i && ema == Ema(values[..i], m)
      invariant forall j :: 0 <= j < i ==> series[j] == Ema(values[..j + 1], m)
    {
      assert Front(values[..i + 1]) == values[..i];
      ema := Blend(values[i], ema, m);
      series := series + [ema];
    }
  }

  function MacdAt(closes: seq<real>, i: nat): real
    requires i < |closes|
  {
    Ema(closes[..i + 1], Multiplier(12)) - Ema(closes[..i + 1], Multiplier(26))
  }

  function MacdSeries(closes: seq<real>): seq<real> {
    seq(|closes|, i requires 0 <= i < |closes| => MacdAt(closes, i))
  }

  function Macd(closes: seq<real>): (real, real)
    requires closes != []
  {
    (MacdAt(closes, |closes| - 1), Ema(MacdSeries(closes), Multiplier(9)))
  }

  // ---- relative strength ----------------------------------------------------------------

  function Changes(closes: seq<real>): seq<real>
    requires closes != []
  {
    seq(|closes| - 1, i requires 0 <= i < |closes| - 1 => closes[i + 1] - closes[i])
  }

  function Gain(change: real): real { if change > 0.0 then change else 0.0 }

  function Loss(change: real): real { if change < 0.0 then -change else 0.0 }

  function RsiOf(gain: real, loss: real): real
    requires gain >= 0.0 && loss >= 0.0
  {
    if loss == 0.0 then 100.0
    else
      QuotientNonNegative(gain, loss);
      100.0 - 100.0 / (1.0 + gain / loss)
  }

  lemma QuotientNonNegative(a: real, b: real)
    requires a >= 0.0 && b > 0.0
    ensures a / b >= 0.0
  {
    if a > 0.0 {
      QuotientPositive(a, b);
    }
  }

  lemma {:induction false} SumNonNegative(f: real -> real, s: seq<real>)
    requires forall x :: f(x) >= 0.0
    ensures SumBy(f, s) >= 0.0
  {
    if s != [] {
      SumNonNegative(f, s[1..]);
    }
  }

  /** The mean of `f` over the last 14 changes. */
  function AverageChange(f: real -> real, closes: seq<real>): real
    requires |closes| > 14
  {
    AverageBy(f, LastOf(Changes(closes), 14))
  }

  lemma AverageNonNegative(f: real -> real, closes: seq<real>)
    requires |closes| > 14 && forall x :: f(x) >= 0.0
    ensures AverageChange(f, closes) >= 0.0
  {
    SumNonNegative(f, LastOf(Changes(closes), 14));
    QuotientNonNegative(SumBy(f, LastOf(Changes(closes), 14)), 14.0);
  }

  function Rsi(closes: seq<real>): real
    requires |closes| > 14
  {
    AverageNonNegative(Gain, closes);
    AverageNonNegative(Loss, closes);
    RsiOf(AverageChange(Gain, closes), AverageChange(Loss, closes))
  }

  // ---- the signals ----------------------------------------------------------------------

  function CrossSignal(fastBefore: real, slowBefore: real, fast: real, slow: real): int {
    if fastBefore <= slowBefore && fast > slow then 100 else if fast > slow then 75 else 25
  }

  function MovingAverageSignal(closes: seq<real>): int
    requires |closes| >= 35
  {
    var before := Front(closes);
    CrossSignal(
      Mean(LastOf(before, 5)), Mean(LastOf(before, 20)), Mean(LastOf(closes, 5)),
      Mean(LastOf(closes, 20)))
  }

  function RsiSignalOf(previous: real, current: real): int {
    if previous < 35.0 <= current then 100
    else if current >= 80.0 && current < previous then 0
    else if 50.0 <= current < 80.0 then 70
    else 40
  }

  function RsiSignal(closes: seq<real>): int
    requires |closes| >= 35
  {
    RsiSignalOf(Rsi(Front(closes)), Rsi(closes))
  }

  function MacdSignal(closes: seq<real>): int
    requires |closes| >= 35
  {
    var (macdBefore, signalBefore) := Macd(Front(closes));
    var (macd, signal) := Macd(closes);
    CrossSignal(macdBefore, signalBefore, macd, signal)
  }

  function SquareFrom(middle: real): real -> real {
    (x: real) => (x - middle) * (x - middle)
  }

  /** The mean of the squared distances from the mean. */
  function Variance(s: seq<real>): real
    requires s != []
  {
    AverageBy(SquareFrom(Mean(s)), s)
  }

  /** `distance` is at least two standard deviations, said without taking the square root. */
  predicate TwoDeviations(distance: real, variance: real) {
    distance >= 0.0 && distance * distance >= 4.0 * variance
  }

  function BollingerSignal(closes: seq<real>): int
    requires |closes| >= 35
  {
    var window := LastOf(closes, 20);
    var previous, last := closes[|closes| - 2], closes[|closes| - 1];
    var middle := Mean(window);
    if TwoDeviations(middle - previous, Variance(window)) && last > previous then 100
    else if TwoDeviations(previous - middle, Variance(window)) && last < previous then 0
    else if last >= middle then 70
    else 35
  }

  /** With the population standard deviation `d` the band tests are those of the source. */
  lemma BandsWithoutRoot(price: real, middle: real, d: real, variance: real)
    requires d >= 0.0 && d * d == variance
    ensures price <= middle - d * 2.0 <==> TwoDeviations(middle - price, variance)
    ensures price >= middle + d * 2.0 <==> TwoDeviations(price - middle, variance)
  {
    SquaresCompare(middle - price, d * 2.0);
    SquaresCompare(price - middle, d * 2.0);
    assert (d * 2.0) * (d * 2.0) == 4.0 * variance;
  }

  lemma SquaresCompare(x: real, y: real)
    requires y >= 0.0
    ensures x >= y <==> x >= 0.0 && x * x >= y * y
  {
    assert Times(y, x) == Times(x, y);
    if x >= y {
      TimesMonotone(x, y, x);
      TimesMonotone(y, y, x);
    } else if x >= 0.0 {
      TimesMonotone(x, x, y);
      TimesPositive(y, y - x);
      assert Times(y, y - x) == Times(y, y) - Times(y, x);
    }
    assert x * x == Times(x, x) && y * y == Times(y, y);
  }

  /** None stands for the error raised on fewer than 35 bars. */
  function ChartScore(closes: seq<real>): Option<real> {
    if |closes| < 35 then None
    else Some(
      (MovingAverageSignal(closes) + RsiSignal(closes) + MacdSignal(closes)
       + BollingerSignal(closes)) as real / 4.0)
  }

  method MacdOf(closes: seq<real>) returns (macd: real, signal: real)
    requires closes != []
    ensures (macd, signal) == Macd(closes)
  {
    var fast := EmaSeries(closes, 12);
    var slow := EmaSeries(closes, 26);
    var series := seq(
      |closes|, i requires 0 <= i < |fast| && 0 <= i < |slow| => fast[i] - slow[i]);
    assert series == MacdSeries(closes);
    var signals := EmaSeries(series, 9);
    assert series[..|series|] == series;
    return series[|series| - 1], signals[|signals| - 1];
  }

  method ChartPatternScore(closes: seq<real>) returns (score: Option<real>)
    ensures score == ChartScore(closes)
  {
    if |closes| < 35 {
      return None;
    }
    var macdBefore, signalBefore := MacdOf(Front(closes));
    var macd, signal := MacdOf(closes);
    var crossing := CrossSignal(macdBefore, signalBefore, macd, signal);
    var total := MovingAverageSignal(closes) + RsiSignal(closes) + crossing + BollingerSignal(closes);
    score := Some(total as real / 4.0);
  }

  // ---- ranges -----------------------------------------------------------------------------

  lemma BlendBetween(value: real, ema: real, m: real, low: real, high: real)
    requires 0.0 <= m <= 1.0 && low <= value <= high && low <= ema <= high
    ensures low <= Blend(value, ema, m) <= high
  {
    TimesMonotone(m, low, value);
    TimesMonotone(m, value, high);
    TimesMonotone(1.0 - m, low, ema);
    TimesMonotone(1.0 - m, ema, high);
    WholeShares(m, low);
    WholeShares(m, high);
  }

  lemma WholeShares(m: real, x: real)
    ensures Times(m, x) + Times(1.0 - m, x) == x
  {
  }

  /** An exponential average stays between any bounds of its inputs. */
  lemma {:induction false} EmaBetween(values: seq<real>, m: real, low: real, high: real)
    requires values != [] && 0.0 <= m <= 1.0
    requires forall i :: 0 <= i < |values| ==> low <= values[i] <= high
    ensures low <= Ema(values, m) <= high
  {
    if |values| > 1 {
      EmaBetween(Front(values), m, low, high);
      BlendBetween(values[|values| - 1], Ema(Front(values), m), m, low, high);
    }
  }

  lemma RsiInRange(closes: seq<real>)
    requires |closes| > 14
    ensures 0.0 <= Rsi(closes) <= 100.0
  {
    AverageNonNegative(Gain, closes);
    AverageNonNegative(Loss, closes);
    RsiOfInRange(AverageChange(Gain, closes), AverageChange(Loss, closes));
  }

  lemma RsiOfInRange(gain: real, loss: real)
    requires gain >= 0.0 && loss >= 0.0
    ensures 0.0 <= RsiOf(gain, loss) <= 100.0
  {
    if loss > 0.0 {
      QuotientNonNegative(gain, loss);
      var base := 1.0 + gain / loss;
      QuotientNonNegative(100.0, base);
      var share := 100.0 / base;
      assert share * base == 100.0;
      ProductMonotone(1.0, base, share);
    }
  }

  /** The score is between 12.5 and 100 and has at most two decimals, so rounding leaves it alone. */
  lemma ScoreInRange(closes: seq<real>)
    requires |closes| >= 35
    ensures 12.5 <= ChartScore(closes).value <= 100.0
    ensures (ChartScore(closes).value * 100.0).Floor as real == ChartScore(closes).value * 100.0
  {
    var total := MovingAverageSignal(closes) + RsiSignal(closes) + MacdSignal(closes)
                 + BollingerSignal(closes);
    assert 50 <= total <= 400;
    assert total as real / 4.0 * 100.0 == (total * 25) as real;
  }

  // ---- the unit of price does not matter ------------------------------------------------------

  lemma CompareScaled(k: real, a: real, b: real)
    requires k > 0.0
    ensures Times(k, a) <= Times(k, b) <==> a <= b
  {
    if a <= b {
      ProductMonotone(a, b, k);
    } else {
      ProductPositive(a - b, k);
      assert (a - b) * k == Times(k, a) - Times(k, b);
    }
  }

  lemma {:induction false} SumScaled(f: real -> real, g: real -> real, k: real, c: real, s: seq<real>)
    requires forall x :: g(Times(k, x)) == Times(c, f(x))
    ensures SumBy(g, Scaled(k, s)) == Times(c, SumBy(f, s))
  {
    if s != [] {
      SumScaled(f, g, k, c, s[1..]);
      assert Scaled(k, s)[1..] == Scaled(k, s[1..]);
      assert g(Scaled(k, s)[0]) == Times(c, f(s[0]));
      assert Times(c, f(s[0])) + Times(c, SumBy(f, s[1..])) == Times(c, f(s[0]) + SumBy(f, s[1..]));
    }
  }

  lemma AverageScaled(f: real -> real, g: real -> real, k: real, c: real, s: seq<real>)
    requires s != [] && forall x :: g(Times(k, x)) == Times(c, f(x))
    ensures AverageBy(g, Scaled(k, s)) == Times(c, AverageBy(f, s))
  {
    SumScaled(f, g, k, c, s);
    DivideScaled(c, SumBy(f, s), |s| as real);
  }

  lemma DivideScaled(c: real, a: real, d: real)
    requires d > 0.0
    ensures Times(c, a) / d == Times(c, a / d)
  {
    var q := a / d;
    assert q * d == a;
    assert Times(c, q) * d == Times(c, a);
  }

  lemma MeanScaled(k: real, s: seq<real>)
    requires s != []
    ensures Mean(Scaled(k, s)) == Times(k, Mean(s))
  {
    AverageScaled(Itself, Itself, k, k, s);
  }

  lemma LastScaled(k: real, s: seq<real>, n: nat)
    requires n <= |s|
    ensures LastOf(Scaled(k, s), n) == Scaled(k, LastOf(s, n))
  {
  }

  lemma FrontScaled(k: real, s: seq<real>)
    requires s != []
    ensures Front(Scaled(k, s)) == Scaled(k, Front(s))
  {
  }

  lemma BlendScaled(k: real, value: real, ema: real, m: real)
    ensures Blend(Times(k, value), Times(k, ema), m) == Times(k, Blend(value, ema, m))
  {
  }

  lemma {:induction false} EmaScaled(k: real, s: seq<real>, m: real)
    requires s != []
    ensures Ema(Scaled(k, s), m) == Times(k, Ema(s, m))
  {
    if |s| > 1 {
      FrontScaled(k, s);
      EmaScaled(k, Front(s), m);
      BlendScaled(k, s[|s| - 1], Ema(Front(s), m), m);
    }
  }

  lemma MacdAtScaled(k: real, s: seq<real>, i: nat)
    requires i < |s|
    ensures MacdAt(Scaled(k, s), i) == Times(k, MacdAt(s, i))
  {
    assert Scaled(k, s)[..i + 1] == Scaled(k, s[..i + 1]);
    EmaScaled(k, s[..i + 1], Multiplier(12));
    EmaScaled(k, s[..i + 1], Multiplier(26));
    TimesDifference(k, Ema(s[..i + 1], Multiplier(12)), Ema(s[..i + 1], Multiplier(26)));
  }

  lemma MacdScaled(k: real, s: seq<real>)
    requires s != []
    ensures Macd(Scaled(k, s)).0 == Times(k, Macd(s).0)
    ensures Macd(Scaled(k, s)).1 == Times(k, Macd(s).1)
  {
    forall i | 0 <= i < |s| ensures MacdSeries(Scaled(k, s))[i] == Scaled(k, MacdSeries(s))[i] {
      MacdAtScaled(k, s, i);
    }
    assert MacdSeries(Scaled(k, s)) == Scaled(k, MacdSeries(s));
    EmaScaled(k, MacdSeries(s), Multiplier(9));
    MacdAtScaled(k, s, |s| - 1);
  }

  lemma CrossScaled(k: real, a: real, b: real, c: real, d: real)
    requires k > 0.0
    ensures CrossSignal(Times(k, a), Times(k, b), Times(k, c), Times(k, d)) == CrossSignal(a, b, c, d)
  {
    CompareScaled(k, a, b);
    CompareScaled(k, c, d);
  }

  lemma ChangesScaled(k: real, s: seq<real>)
    requires s != []
    ensures Changes(Scaled(k, s)) == Scaled(k, Changes(s))
  {
    forall i | 0 <= i < |s| - 1 ensures Changes(Scaled(k, s))[i] == Scaled(k, Changes(s))[i] {
      TimesDifference(k, s[i + 1], s[i]);
    }
  }

  lemma SignScaled(k: real, x: real)
    requires k > 0.0
    ensures Gain(Times(k, x)) == Times(k, Gain(x)) && Loss(Times(k, x)) == Times(k, Loss(x))
  {
    CompareScaled(k, x, 0.0);
    CompareScaled(k, 0.0, x);
    assert Times(k, 0.0) == 0.0 && Times(k, -x) == -Times(k, x);
  }

  lemma AverageChangeScaled(f: real -> real, k: real, s: seq<real>)
    requires |s| > 14 && forall x :: f(Times(k, x)) == Times(k, f(x))
    ensures AverageChange(f, Scaled(k, s)) == Times(k, AverageChange(f, s))
  {
    ChangesScaled(k, s);
    LastScaled(k, Changes(s), 14);
    AverageScaled(f, f, k, k, LastOf(Changes(s), 14));
  }

  lemma RsiScaled(k: real, s: seq<real>)
    requires k > 0.0 && |s| > 14
    ensures Rsi(Scaled(k, s)) == Rsi(s)
  {
    forall x ensures Gain(Times(k, x)) == Times(k, Gain(x)) && Loss(Times(k, x)) == Times(k, Loss(x)) {
      SignScaled(k, x);
    }
    AverageChangeScaled(Gain, k, s);
    AverageChangeScaled(Loss, k, s);
    AverageNonNegative(Gain, s);
    AverageNonNegative(Loss, s);
    RsiOfScaled(k, AverageChange(Gain, s), AverageChange(Loss, s));
  }

  lemma RsiOfScaled(k: real, gain: real, loss: real)
    requires k > 0.0 && gain >= 0.0 && loss >= 0.0
    ensures Times(k, gain) >= 0.0 && Times(k, loss) >= 0.0
    ensures RsiOf(Times(k, gain), Times(k, loss)) == RsiOf(gain, loss)
  {
    ProductMonotone(0.0, gain, k);
    ProductMonotone(0.0, loss, k);
    if loss > 0.0 {
      CancelFactor(k, gain, loss);
    }
  }

  lemma VarianceScaled(k: real, s: seq<real>)
    requires s != []
    ensures Variance(Scaled(k, s)) == Times(Times(k, k), Variance(s))
  {
    MeanScaled(k, s);
    var middle := Mean(s);
    forall x
      ensures SquareFrom(Times(k, middle))(Times(k, x)) == Times(Times(k, k), SquareFrom(middle)(x))
    {
      SquareScaled(k, x, middle);
    }
    AverageScaled(SquareFrom(middle), SquareFrom(Times(k, middle)), k, Times(k, k), s);
  }

  lemma SquareScaled(k: real, x: real, middle: real)
    ensures (Times(k, x) - Times(k, middle)) * (Times(k, x) - Times(k, middle))
            == Times(Times(k, k), (x - middle) * (x - middle))
  {
    var d := x - middle;
    assert Times(k, x) - Times(k, middle) == k * d;
    assert (k * d) * (k * d) == (k * k) * (d * d);
  }

  lemma TwoDeviationsScaled(k: real, distance: real, variance: real)
    requires k > 0.0
    ensures TwoDeviations(Times(k, distance), Times(Times(k, k), variance))
            <==> TwoDeviations(distance, variance)
  {
    TimesPositive(k, k);
    CompareScaled(k, 0.0, distance);
    CompareScaled(Times(k, k), 4.0 * variance, distance * distance);
    SquareScaled(k, distance, 0.0);
    assert Times(k, 0.0) == 0.0;
    assert 4.0 * Times(Times(k, k), variance) == Times(Times(k, k), 4.0 * variance);
  }

  lemma BollingerScaled(k: real, s: seq<real>)
    requires k > 0.0 && |s| >= 35
    ensures BollingerSignal(Scaled(k, s)) == BollingerSignal(s)
  {
    LastScaled(k, s, 20);
    var window := LastOf(s, 20);
    var previous, last, middle := s[|s| - 2], s[|s| - 1], Mean(window);
    MeanScaled(k, window);
    VarianceScaled(k, window);
    CompareScaled(k, last, previous);
    CompareScaled(k, previous, last);
    CompareScaled(k, middle, last);
    TwoDeviationsScaled(k, middle - previous, Variance(window));
    TwoDeviationsScaled(k, previous - middle, Variance(window));
    TimesDifference(k, middle, previous);
    TimesDifference(k, previous, middle);
  }

  lemma MovingAverageScaled(k: real, s: seq<real>)
    requires k > 0.0 && |s| >= 35
    ensures MovingAverageSignal(Scaled(k, s)) == MovingAverageSignal(s)
  {
    var before := Front(s);
    FrontScaled(k, s);
    LastScaled(k, s, 5);
    LastScaled(k, s, 20);
    LastScaled(k, before, 5);
    LastScaled(k, before, 20);
    MeanScaled(k, LastOf(s, 5));
    MeanScaled(k, LastOf(s, 20));
    MeanScaled(k, LastOf(before, 5));
    MeanScaled(k, LastOf(before, 20));
    CrossScaled(
      k, Mean(LastOf(before, 5)), Mean(LastOf(before, 20)), Mean(LastOf(s, 5)),
      Mean(LastOf(s, 20)));
  }

  /** Multiplying every price by the same positive number does not change the score. */
  lemma ScoreIgnoresUnit(k: real, closes: seq<real>)
    requires k > 0.0
    ensures ChartScore(Scaled(k, closes)) == ChartScore(closes)
  {
    if |closes| >= 35 {
      MovingAverageScaled(k, closes);
      FrontScaled(k, closes);
      RsiScaled(k, closes);
      RsiScaled(k, Front(closes));
      MacdScaled(k, closes);
      MacdScaled(k, Front(closes));
      CrossScaled(
        k, Macd(Front(closes)).0, Macd(Front(closes)).1, Macd(closes).0, Macd(closes).1);
      BollingerScaled(k, closes);
    }
  }
}
