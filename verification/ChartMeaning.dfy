/** What the chart score is of the closes: averages, strength and bands without their own formulas. */
module ChartMeaning {
  import opened ChartScoring
  import opened Common

  function Value(x: real): real { x }

  /** The mean of some closes: times their count it is their sum. */
  ghost predicate IsMeanOf(mean: real, closes: seq<real>) {
    mean * |closes| as real == SumBy(Value, closes)
  }

  // ---- exponential averages ----------------------------------------------------

  /** The average moves by two parts in `period` + 1 of what it is off. */
  predicate Steps(now: real, before: real, value: real, period: nat) {
    (now - before) * (period + 1) as real == 2.0 * (value - before)
  }

  /** An exponential average of the values: it starts at the first and steps towards each next one. */
  ghost predicate Follows(average: seq<real>, values: seq<real>, period: nat) {
    && |average| == |values|
    && (values != [] ==> average[0] == values[0])
    && forall i :: 0 < i < |values| ==>
         Steps(average[i], average[i - 1], values[i], period)
  }

  lemma BlendStated(value: real, ema: real, period: nat)
    ensures Steps(Blend(value, ema, Multiplier(period)), ema, value, period)
  {
    var m, n := Multiplier(period), (period + 1) as real;
    assert m * n == 2.0;
    assert Blend(value, ema, m) - ema == m * (value - ema);
    assert (m * (value - ema)) * n == (m * n) * (value - ema);
  }

  function EmaOfPrefixes(values: seq<real>, period: nat): (r: seq<real>)
    ensures |r| == |values|
  {
    seq(|values|, i requires 0 <= i < |values| => Ema(values[..i + 1], Multiplier(period)))
  }

  lemma PrefixesFollow(values: seq<real>, period: nat)
    ensures Follows(EmaOfPrefixes(values, period), values, period)
  {
    var average := EmaOfPrefixes(values, period);
    forall i | 0 < i < |values|
      ensures Steps(average[i], average[i - 1], values[i], period)
    {
      assert Front(values[..i + 1]) == values[..i];
      BlendStated(values[i], average[i - 1], period);
    }
  }

  // ---- signals -----------------------------------------------------------------

  /** How far the fast line is above the slow one, before and now: a new crossing is worth most. */
  predicate IsCross(signal: int, before: real, now: real) {
    signal == if now <= 0.0 then 25 else if before <= 0.0 then 100 else 75
  }

  /** Five closes against twenty, on the bar before and on the last. */
  ghost predicate IsAverageSignal(
    signal: int, closes: seq<real>, fastBefore: real, slowBefore: real, fast: real, slow: real)
    requires |closes| >= 35
  {
    var n := |closes|;
    && IsMeanOf(fastBefore, closes[n - 6..n - 1]) && IsMeanOf(slowBefore, closes[n - 21..n - 1])
    && IsMeanOf(fast, closes[n - 5..]) && IsMeanOf(slow, closes[n - 20..])
    && IsCross(signal, fastBefore - slowBefore, fast - slow)
  }

  /** The difference of a fast and a slow average against its own average, last and before. */
  ghost predicate IsMacdSignal(
    signal: int, closes: seq<real>, fast: seq<real>, slow: seq<real>, gap: seq<real>, mean: seq<real>)
    requires |closes| >= 35
  {
    var n := |closes|;
    && Follows(fast, closes, 12) && Follows(slow, closes, 26)
    && |gap| == n && (forall i :: 0 <= i < n ==> gap[i] == fast[i] - slow[i])
    && Follows(mean, gap, 9)
    && IsCross(signal, gap[n - 2] - mean[n - 2], gap[n - 1] - mean[n - 1])
  }

  lemma AverageSignalStated(closes: seq<real>) returns (a: real, b: real, c: real, d: real)
    requires |closes| >= 35
    ensures IsAverageSignal(MovingAverageSignal(closes), closes, a, b, c, d)
  {
    var n := |closes|;
    a, b := Mean(closes[n - 6..n - 1]), Mean(closes[n - 21..n - 1]);
    c, d := Mean(closes[n - 5..]), Mean(closes[n - 20..]);
    assert LastOf(Front(closes), 5) == closes[n - 6..n - 1];
    assert LastOf(Front(closes), 20) == closes[n - 21..n - 1];
    MeanStated(closes[n - 6..n - 1]);
    MeanStated(closes[n - 21..n - 1]);
    MeanStated(closes[n - 5..]);
    MeanStated(closes[n - 20..]);
  }

  lemma MeanStated(s: seq<real>)
    requires s != []
    ensures IsMeanOf(Mean(s), s)
  {
    SumByAgree(Itself, Value, s);
  }

  lemma MacdSignalStated(closes: seq<real>)
    returns (fast: seq<real>, slow: seq<real>, gap: seq<real>, mean: seq<real>)
    requires |closes| >= 35
    ensures IsMacdSignal(MacdSignal(closes), closes, fast, slow, gap, mean)
  {
    var n := |closes|;
    fast, slow := EmaOfPrefixes(closes, 12), EmaOfPrefixes(closes, 26);
    gap := MacdSeries(closes);
    mean := EmaOfPrefixes(gap, 9);
    PrefixesFollow(closes, 12);
    PrefixesFollow(closes, 26);
    PrefixesFollow(gap, 9);
    assert gap[..n] == gap;
    MacdBefore(closes);
  }

  /** The lines before the last close are those of the closes without it. */
  lemma MacdBefore(closes: seq<real>)
    requires |closes| >= 35
    ensures var n, gap := |closes|, MacdSeries(closes);
            Macd(Front(closes)) == (gap[n - 2], Ema(gap[..n - 1], Multiplier(9)))
  {
    var front, gap := Front(closes), MacdSeries(closes);
    forall i | 0 <= i < |front| ensures MacdSeries(front)[i] == gap[i] {
      assert front[..i + 1] == closes[..i + 1];
    }
    assert MacdSeries(front) == gap[..|front|];
  }

  // ---- strength ----------------------------------------------------------------

  /** How much the closes rise in all, step by step, and how much they fall. */
  function Rises(closes: seq<real>): real {
    if |closes| < 2 then 0.0
    else (if closes[1] > closes[0] then closes[1] - closes[0] else 0.0) + Rises(closes[1..])
  }

  function Falls(closes: seq<real>): real {
    if |closes| < 2 then 0.0
    else (if closes[1] < closes[0] then closes[0] - closes[1] else 0.0) + Falls(closes[1..])
  }

  /** The share of the rises in all moves of fifteen closes, in percent; 100 when nothing falls. */
  ghost predicate IsStrength(rsi: real, closes: seq<real>) {
    if Falls(closes) == 0.0 then rsi == 100.0
    else rsi * (Rises(closes) + Falls(closes)) == 100.0 * Rises(closes)
  }

  /** Strength coming back up to 35 is best, turning down from 80 worst. */
  predicate IsRsiSignal(signal: int, before: real, now: real) {
    && (signal == 100 <==> before < 35.0 && now >= 35.0)
    && (signal == 0 <==> now >= 80.0 && now < before)
    && (signal == 70 <==> 50.0 <= now < 80.0 && before >= 35.0)
    && signal in {0, 40, 70, 100}
  }

  lemma {:induction false} MovesStated(closes: seq<real>)
    requires closes != []
    ensures SumBy(Gain, Changes(closes)) == Rises(closes) >= 0.0
    ensures SumBy(Loss, Changes(closes)) == Falls(closes) >= 0.0
  {
    if |closes| > 1 {
      MovesStated(closes[1..]);
      assert Changes(closes)[1..] == Changes(closes[1..]);
    }
  }

  lemma StrengthFromParts(rise: real, fall: real)
    requires rise >= 0.0 && fall > 0.0
    ensures rise / 14.0 >= 0.0 && fall / 14.0 > 0.0
    ensures RsiOf(rise / 14.0, fall / 14.0) * (rise + fall) == 100.0 * rise
  {
    var ratio := (rise / 14.0) / (fall / 14.0);
    assert ratio * (fall / 14.0) == rise / 14.0;
    assert ratio * fall == rise;
    var part := 100.0 / (1.0 + ratio);
    QuotientNonNegative(rise / 14.0, fall / 14.0);
    assert part * (1.0 + ratio) == 100.0;
    assert (1.0 + ratio) * fall == fall + rise;
    assert part * (rise + fall) == (part * (1.0 + ratio)) * fall;
    assert (100.0 - part) * (rise + fall) == 100.0 * (rise + fall) - part * (rise + fall);
  }

  lemma StrengthStated(closes: seq<real>)
    requires |closes| > 14
    ensures IsStrength(Rsi(closes), closes[|closes| - 15..])
  {
    var last := closes[|closes| - 15..];
    assert LastOf(Changes(closes), 14) == Changes(last);
    MovesStated(last);
    AverageNonNegative(Gain, closes);
    AverageNonNegative(Loss, closes);
    if Falls(last) > 0.0 {
      StrengthFromParts(Rises(last), Falls(last));
    }
  }

  // ---- bands -------------------------------------------------------------------

  function SquaredFrom(middle: real): real -> real {
    (x: real) => (x - middle) * (x - middle)
  }

  /** The standard deviation of some closes around their mean. */
  ghost predicate IsDeviation(d: real, middle: real, closes: seq<real>) {
    d >= 0.0 && d * d * |closes| as real == SumBy(SquaredFrom(middle), closes)
  }

  /** Bouncing off the lower band is best, falling from the upper one worst; else the middle decides. */
  predicate IsBandSignal(signal: int, before: real, now: real, middle: real, d: real) {
    signal == if before <= middle - 2.0 * d && now > before then 100
              else if before >= middle + 2.0 * d && now < before then 0
              else if now >= middle then 70
              else 35
  }

  /** If these are the mean and the deviation of the last twenty closes, they decide the signal. */
  ghost predicate IsBandedBy(signal: int, closes: seq<real>, middle: real, d: real)
    requires |closes| >= 35
  {
    var n := |closes|;
    IsMeanOf(middle, closes[n - 20..]) && IsDeviation(d, middle, closes[n - 20..]) ==>
      IsBandSignal(signal, closes[n - 2], closes[n - 1], middle, d)
  }

  lemma BandSignalStated(closes: seq<real>, middle: real, d: real)
    requires |closes| >= 35
    ensures IsBandedBy(BollingerSignal(closes), closes, middle, d)
  {
    var window := LastOf(closes, 20);
    if IsMeanOf(middle, window) && IsDeviation(d, middle, window) {
      MeanStated(window);
      assert Mean(window) == middle;
      SumByAgree(SquareFrom(middle), SquaredFrom(middle), window);
      assert Variance(window) == d * d;
      BandsWithoutRoot(closes[|closes| - 2], middle, d, d * d);
    }
  }

  // ---- main result -------------------------------------------------------------

  /** The four signals of the score. */
  datatype Signals = Signals(average: int, rsi: int, macd: int, band: int)

  ghost predicate AreSignals(signals: Signals, closes: seq<real>)
    requires |closes| >= 35
  {
    var n := |closes|;
    && (exists a: real, b: real, c: real, d: real ::
          IsAverageSignal(signals.average, closes, a, b, c, d))
    && (exists before: real, now: real ::
          && IsStrength(before, closes[n - 16..n - 1]) && IsStrength(now, closes[n - 15..])
          && IsRsiSignal(signals.rsi, before, now))
    && (exists fast: seq<real>, slow: seq<real>, gap: seq<real>, mean: seq<real> ::
          IsMacdSignal(signals.macd, closes, fast, slow, gap, mean))
    && forall middle: real, d: real :: IsBandedBy(signals.band, closes, middle, d)
  }

  /**
   * The score is the mean of four signals: the crossing of the moving averages, the turn of the
   * strength index, the crossing of the two exponential lines, and the place within the bands.
   */
  lemma ScoreStated(closes: seq<real>) returns (signals: Signals)
    requires |closes| >= 35
    ensures AreSignals(signals, closes) && ChartScore(closes).Some?
    ensures ChartScore(closes).value * 4.0
         == (signals.average + signals.rsi + signals.macd + signals.band) as real
  {
    var n := |closes|;
    signals := Signals(
      MovingAverageSignal(closes), RsiSignal(closes), MacdSignal(closes), BollingerSignal(closes));
    var _, _, _, _ := AverageSignalStated(closes);
    StrengthStated(closes);
    StrengthStated(Front(closes));
    assert Front(closes)[n - 16..] == closes[n - 16..n - 1];
    assert IsRsiSignal(signals.rsi, Rsi(Front(closes)), Rsi(closes));
    var _, _, _, _ := MacdSignalStated(closes);
    forall middle: real, d: real ensures IsBandedBy(signals.band, closes, middle, d) {
      BandSignalStated(closes, middle, d);
    }
  }
}
