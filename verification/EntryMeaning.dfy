/** What the entry conditions ask of the market data, and which reasons an evaluation gives. */
module EntryMeaning {
  import opened Common
  import opened EntryTiming

  // ---- conditions --------------------------------------------------------------

  /** The price holds against a known average, or has fallen below it. */
  predicate HoldsUp(last: real, average: Option<real>) {
    average.Some? && average.value > 0.0 && last >= average.value
  }

  predicate FallsBelow(last: real, average: Option<real>) {
    average.Some? && average.value > 0.0 && last < average.value
  }

  predicate Passes(c: Condition, b: Breakout, threshold: real, s: Settings) {
    match c
    case Close => b.recentClose.Some? && b.recentClose.value >= threshold
    case Hold => b.minutesAbove.Some? && b.minutesAbove.value >= s.holdMinutes
    case Volume =>
      && b.currentVolume.Some? && b.previousVolume.Some? && b.previousVolume.value > 0.0
      && (b.currentVolume.value - b.previousVolume.value) * 100.0
         >= s.minVolumeIncrease * b.previousVolume.value
    case Pullback => b.pulledBack == Some(true)
    case Average =>
      match s.averageRule
      case VwapOnly => HoldsUp(b.last, b.vwap)
      case Ma20Only => HoldsUp(b.last, b.ma20)
      case Both => HoldsUp(b.last, b.vwap) && HoldsUp(b.last, b.ma20)
      case Either => HoldsUp(b.last, b.vwap) || HoldsUp(b.last, b.ma20)
      case Neither => false
  }

  predicate Fails(c: Condition, b: Breakout, threshold: real, s: Settings) {
    match c
    case Close => b.recentClose.Some? && b.recentClose.value < threshold
    case Hold => b.minutesAbove.Some? && b.minutesAbove.value < s.holdMinutes
    case Volume =>
      && b.currentVolume.Some? && b.previousVolume.Some? && b.previousVolume.value > 0.0
      && (b.currentVolume.value - b.previousVolume.value) * 100.0
         < s.minVolumeIncrease * b.previousVolume.value
    case Pullback => b.pulledBack == Some(false)
    case Average =>
      match s.averageRule
      case VwapOnly => FallsBelow(b.last, b.vwap)
      case Ma20Only => FallsBelow(b.last, b.ma20)
      case Both => FallsBelow(b.last, b.vwap) || FallsBelow(b.last, b.ma20)
      case Either => FallsBelow(b.last, b.vwap) && FallsBelow(b.last, b.ma20)
      case Neither => false
  }

  lemma IncreaseStated(previous: real, current: real, least: real)
    requires previous > 0.0
    ensures IncreasePercent(previous, current) >= least
       <==> (current - previous) * 100.0 >= least * previous
  {
    var ratio := (current - previous) / previous;
    assert ratio * previous == current - previous;
    assert (ratio * 100.0) * previous == (current - previous) * 100.0;
    assert ratio * 100.0 >= least ==> (ratio * 100.0) * previous >= least * previous;
    assert ratio * 100.0 < least ==> (ratio * 100.0) * previous < least * previous;
  }

  /** A condition passes or fails as its data says, and has no answer otherwise. */
  lemma StatesStated(c: Condition, b: Breakout, threshold: real, s: Settings)
    ensures StateOf(c, b, threshold, s) == Pass <==> Passes(c, b, threshold, s)
    ensures StateOf(c, b, threshold, s) == Fail <==> Fails(c, b, threshold, s)
  {
    if b.currentVolume.Some? && b.previousVolume.Some? && b.previousVolume.value > 0.0 {
      IncreaseStated(b.previousVolume.value, b.currentVolume.value, s.minVolumeIncrease);
    }
  }

  // ---- reasons -----------------------------------------------------------------

  const FAILURES := [
    "OVERHEAT_LIMIT_EXCEEDED", "BREAKOUT_CLOSE_FAILED", "BREAKOUT_HOLD_FAILED",
    "VOLUME_INCREASE_FAILED", "VWAP_MA20_FAILED", "PULLBACK_REBREAK_FAILED"]

  const MISSING := [
    "BREAKOUT_CLOSE_DATA_MISSING", "BREAKOUT_HOLD_DATA_MISSING", "VOLUME_INCREASE_DATA_MISSING",
    "VWAP_MA20_DATA_MISSING", "PULLBACK_REBREAK_DATA_MISSING"]

  /** The price has risen over the open by more than the limit; without an open it has not risen. */
  predicate Overheats(b: Breakout, s: Settings) {
    if b.open > 0.0 then b.last - b.open > s.maxChange * b.open else 0.0 > s.maxChange
  }

  /** Which failures an evaluation reports as hard, soft or logged. */
  predicate IsFailure(mode: Mode, b: Breakout, threshold: real, s: Settings, reason: string) {
    || (reason == FAILURES[0] && s.overheatMode == mode && Overheats(b, s))
    || (reason == FAILURES[1] && s.requireClose && s.closeMode == mode && Fails(Close, b, threshold, s))
    || (reason == FAILURES[2] && s.requireClose && s.closeMode == mode
        && Fails(Hold, b, threshold, s) && !Fails(Close, b, threshold, s))
    || (reason == FAILURES[3] && s.requireVolume && s.volumeMode == mode
        && Fails(Volume, b, threshold, s))
    || (reason == FAILURES[4] && s.requireAverage && s.averageMode == mode
        && Fails(Average, b, threshold, s))
    || (reason == FAILURES[5] && s.requirePullback && s.pullbackMode == mode
        && Fails(Pullback, b, threshold, s))
  }

  predicate Unanswered(c: Condition, b: Breakout, threshold: real, s: Settings) {
    !Passes(c, b, threshold, s) && !Fails(c, b, threshold, s)
  }

  /** Which data an evaluation reports as missing: of the conditions that are on. */
  predicate IsMissing(b: Breakout, threshold: real, s: Settings, reason: string) {
    || (reason == MISSING[0] && s.requireClose && s.closeMode != Off
        && Unanswered(Close, b, threshold, s))
    || (reason == MISSING[1] && s.requireClose && s.closeMode != Off && s.holdMinutes > 0.0
        && Unanswered(Hold, b, threshold, s))
    || (reason == MISSING[2] && s.requireVolume && s.volumeMode != Off
        && Unanswered(Volume, b, threshold, s))
    || (reason == MISSING[3] && s.requireAverage && s.averageMode != Off && !s.averageRule.Neither?
        && Unanswered(Average, b, threshold, s))
    || (reason == MISSING[4] && s.requirePullback && s.pullbackMode != Off
        && Unanswered(Pullback, b, threshold, s))
  }

  function Failing(mode: Mode, b: Breakout, threshold: real, s: Settings): string -> bool {
    (reason: string) => IsFailure(mode, b, threshold, s, reason)
  }

  function Lacking(b: Breakout, threshold: real, s: Settings): string -> bool {
    (reason: string) => IsMissing(b, threshold, s, reason)
  }

  lemma FilterOne<T(!new)>(p: T -> bool, x: T)
    ensures Filter(p, [x]) == if p(x) then [x] else []
  {
    assert [x][1..] == [];
  }

  lemma FilterNext<T(!new)>(p: T -> bool, front: seq<T>, x: T)
    ensures Filter(p, front + [x]) == Filter(p, front) + if p(x) then [x] else []
  {
    FilterAppend(p, front, [x]);
    FilterOne(p, x);
  }

  lemma FilterFive(p: string -> bool, a: string, b: string, c: string, d: string, e: string)
    ensures Filter(p, [a] + [b] + [c] + [d] + [e])
         == Report(p(a), a) + Report(p(b), b) + Report(p(c), c) + Report(p(d), d) + Report(p(e), e)
  {
    FilterOne(p, a);
    FilterNext(p, [a], b);
    FilterNext(p, [a] + [b], c);
    FilterNext(p, [a] + [b] + [c], d);
    FilterNext(p, [a] + [b] + [c] + [d], e);
  }

  lemma OverheatStated(b: Breakout, s: Settings)
    ensures Overheated(b, s) <==> Overheats(b, s)
  {
    if b.open > 0.0 {
      var change := (b.last - b.open) / b.open;
      assert change * b.open == b.last - b.open;
      assert change > s.maxChange ==> change * b.open > s.maxChange * b.open;
      assert change <= s.maxChange ==> change * b.open <= s.maxChange * b.open;
    }
  }

  /** A failed close is reported before a failed hold, and both as the close condition asks. */
  lemma ConfirmationStated(mode: Mode, b: Breakout, threshold: real, s: Settings)
    requires mode != Off
    ensures var p := Failing(mode, b, threshold, s);
            ConfirmationFailure(mode, b, threshold, s)
            == Report(p(FAILURES[1]), FAILURES[1]) + Report(p(FAILURES[2]), FAILURES[2])
  {
    StatesStated(Close, b, threshold, s);
    StatesStated(Hold, b, threshold, s);
    ReasonsDiffer();
  }

  lemma ConditionStated(c: Condition, i: nat, mode: Mode, b: Breakout, threshold: real, s: Settings)
    requires mode != Off && (c, i) in {(Volume, 3), (Average, 4), (Pullback, 5)}
    ensures FailureOf(c, FAILURES[i], mode, b, threshold, s)
         == Report(Failing(mode, b, threshold, s)(FAILURES[i]), FAILURES[i])
  {
    StatesStated(c, b, threshold, s);
    ReasonsDiffer();
  }

  lemma HeatStated(mode: Mode, b: Breakout, threshold: real, s: Settings)
    requires mode != Off
    ensures (Overheated(b, s) && s.overheatMode == mode)
       <==> Failing(mode, b, threshold, s)(FAILURES[0])
  {
    OverheatStated(b, s);
    ReasonsDiffer();
  }

  /** The reasons are told apart by their texts. */
  lemma ReasonsDiffer()
    ensures forall i, j :: 0 <= i < j < |FAILURES| ==> FAILURES[i] != FAILURES[j]
    ensures forall i, j :: 0 <= i < j < |MISSING| ==> MISSING[i] != MISSING[j]
  {
  }

  lemma FilterFailures(p: string -> bool)
    ensures var f := FAILURES;
            Filter(p, f)
            == Report(p(f[0]), f[0]) + Report(p(f[1]), f[1]) + Report(p(f[2]), f[2])
               + Report(p(f[3]), f[3]) + Report(p(f[4]), f[4]) + Report(p(f[5]), f[5])
  {
    var f := FAILURES;
    FilterFive(p, f[0], f[1], f[2], f[3], f[4]);
    FilterNext(p, [f[0]] + [f[1]] + [f[2]] + [f[3]] + [f[4]], f[5]);
    assert f == [f[0]] + [f[1]] + [f[2]] + [f[3]] + [f[4]] + [f[5]];
  }

  lemma JoinFront<T>(a: seq<T>, b: seq<T>, c: seq<T>, d: seq<T>, e: seq<T>, f: seq<T>)
    ensures a + (b + c) + d + e + f == a + b + c + d + e + f
  {
    assert a + (b + c) == a + b + c;
  }

  lemma FailuresStated(mode: Mode, b: Breakout, threshold: real, s: Settings)
    requires mode != Off
    ensures FailuresAt(mode, b, threshold, s) == Filter(Failing(mode, b, threshold, s), FAILURES)
  {
    var p, f := Failing(mode, b, threshold, s), FAILURES;
    HeatStated(mode, b, threshold, s);
    ConfirmationStated(mode, b, threshold, s);
    ConditionStated(Volume, 3, mode, b, threshold, s);
    ConditionStated(Average, 4, mode, b, threshold, s);
    ConditionStated(Pullback, 5, mode, b, threshold, s);
    JoinFront(
      Report(p(f[0]), f[0]), Report(p(f[1]), f[1]), Report(p(f[2]), f[2]), Report(p(f[3]), f[3]),
      Report(p(f[4]), f[4]), Report(p(f[5]), f[5]));
    FilterFailures(p);
  }

  lemma UnknownStated(c: Condition, i: nat, b: Breakout, threshold: real, s: Settings)
    requires (c, i) in {(Close, 0), (Hold, 1), (Volume, 2), (Average, 3), (Pullback, 4)}
    ensures Unknown(c, b, threshold, s) <==> Lacking(b, threshold, s)(MISSING[i])
  {
    StatesStated(c, b, threshold, s);
    ReasonsDiffer();
  }

  lemma MissingStated(b: Breakout, threshold: real, s: Settings)
    ensures MissingReasons(b, threshold, s) == Filter(Lacking(b, threshold, s), MISSING)
  {
    var p, m := Lacking(b, threshold, s), MISSING;
    UnknownStated(Close, 0, b, threshold, s);
    UnknownStated(Hold, 1, b, threshold, s);
    UnknownStated(Volume, 2, b, threshold, s);
    UnknownStated(Average, 3, b, threshold, s);
    UnknownStated(Pullback, 4, b, threshold, s);
    FilterFive(p, m[0], m[1], m[2], m[3], m[4]);
    assert m == [m[0]] + [m[1]] + [m[2]] + [m[3]] + [m[4]];
  }

  // ---- main result -------------------------------------------------------------

  /** Only mock trading in test mode may run without the data, and only when not told to block. */
  predicate Tolerant(s: Settings) {
    s.appMode == "test" && s.mock && (s.policyText == "AUTO" || s.policyText == "LOG_ONLY")
  }

  /** What stops an entry for its missing data: the one reason, or that there are several. */
  function Blocking(missing: seq<string>): seq<string> {
    if missing == [] then []
    else if |missing| == 1 then missing
    else ["REQUIRED_INTRADAY_DATA_MISSING"]
  }

  lemma EvaluationParts(b: Breakout, threshold: real, s: Settings)
    ensures var r := Evaluate(b, threshold, s);
            (r.Some? <==> s.policyText == "AUTO" || s.policyText == "LOG_ONLY" || s.policyText == "BLOCK")
            && (r.Some? ==>
                  var e := r.value;
                  && e.missing == MissingReasons(b, threshold, s)
                  && e.soft == FailuresAt(SoftScore, b, threshold, s)
                  && e.hard == FailuresAt(HardFilter, b, threshold, s)
                               + (if Tolerant(s) then [] else Blocking(e.missing))
                  && e.logs == FailuresAt(LogOnly, b, threshold, s)
                               + (if Tolerant(s) then e.missing else [])
                  && (e.allowed <==> e.hard == [])
                  && e.adjustment == 0.0 - 5.0 * |e.soft| as real)
  {
    var missing := MissingReasons(b, threshold, s);
    assert missing != [] ==> [BlockReason(missing)] == Blocking(missing);
  }

  /**
   * An evaluation exists for a known policy. It reports, in a fixed order, exactly the failures of
   * each mode and the data that is missing; every soft failure costs five points, and the entry is
   * allowed when nothing hard is reported.
   */
  lemma EvaluationStated(b: Breakout, threshold: real, s: Settings)
    ensures var r := Evaluate(b, threshold, s);
            (r.Some? <==> s.policyText == "AUTO" || s.policyText == "LOG_ONLY" || s.policyText == "BLOCK")
            && (r.Some? ==>
                  var e := r.value;
                  && e.missing == Filter(Lacking(b, threshold, s), MISSING)
                  && e.soft == Filter(Failing(SoftScore, b, threshold, s), FAILURES)
                  && e.hard == Filter(Failing(HardFilter, b, threshold, s), FAILURES)
                               + (if Tolerant(s) then [] else Blocking(e.missing))
                  && e.logs == Filter(Failing(LogOnly, b, threshold, s), FAILURES)
                               + (if Tolerant(s) then e.missing else [])
                  && (e.allowed <==> e.hard == [])
                  && e.adjustment == 0.0 - 5.0 * |e.soft| as real)
  {
    FailuresStated(HardFilter, b, threshold, s);
    FailuresStated(SoftScore, b, threshold, s);
    FailuresStated(LogOnly, b, threshold, s);
    MissingStated(b, threshold, s);
    EvaluationParts(b, threshold, s);
  }
}
