/** The intraday entry conditions: three-valued states, condition modes, and missing data. */
module EntryTiming {
  import opened Common

  datatype State = Pass | Fail | NoData

  datatype Mode = Off | LogOnly | SoftScore | HardFilter

  /** Which of VWAP and the 20-bar average the entry is held against. */
  datatype AverageRule = Either | Both | VwapOnly | Ma20Only | Neither

  datatype Policy = BlockMissing | LogMissing

  datatype Breakout = Breakout(
    last: real, open: real, previousHigh: real, previousLow: real, minutesAbove: Option<real>,
    recentClose: Option<real>, currentVolume: Option<real>, previousVolume: Option<real>,
    vwap: Option<real>, ma20: Option<real>, pulledBack: Option<bool>)

  datatype Settings = Settings(
    policyText: string, appMode: string, mock: bool, holdMinutes: real, minVolumeIncrease: real,
    maxChange: real, averageRule: AverageRule, requireClose: bool, requireVolume: bool,
    requireAverage: bool, requirePullback: bool, overheatMode: Mode, closeMode: Mode,
    volumeMode: Mode, averageMode: Mode, pullbackMode: Mode)

  datatype Condition = Close | Hold | Volume | Average | Pullback

  datatype Evaluation = Evaluation(
    allowed: bool, adjustment: real, hard: seq<string>, soft: seq<string>, logs: seq<string>,
    missing: seq<string>)

  /** `text` is the trimmed upper-case name; None stands for the error raised on an unknown one. */
  function ResolvePolicy(text: string, appMode: string, mock: bool): (r: Option<Policy>)
    ensures r.Some? <==> text in {"AUTO", "LOG_ONLY", "BLOCK"}
    ensures r == Some(LogMissing) <==> appMode == "test" && mock && text in {"AUTO", "LOG_ONLY"}
  {
    if text !in {"AUTO", "LOG_ONLY", "BLOCK"} then None
    else if appMode == "real" || !(appMode == "test" && mock) then Some(BlockMissing)
    else if text == "AUTO" then Some(LogMissing)
    else Some(if text == "BLOCK" then BlockMissing else LogMissing)
  }

  // ---- states and modes --------------------------------------------------------

  function Verdict(passed: bool): State { if passed then Pass else Fail }

  function IncreasePercent(previous: real, current: real): real
    requires previous > 0.0
  {
    (current - previous) / previous * 100.0
  }

  /** Whether the price holds up against an average, None without a positive average. */
  function Above(last: real, average: Option<real>): Option<bool> {
    if average.Some? && average.value > 0.0 then Some(last >= average.value) else None
  }

  function AverageState(vwap: Option<bool>, ma20: Option<bool>, rule: AverageRule): State {
    match rule
    case Neither => NoData
    case VwapOnly => if vwap.None? then NoData else Verdict(vwap.value)
    case Ma20Only => if ma20.None? then NoData else Verdict(ma20.value)
    case Both =>
      if vwap == Some(false) || ma20 == Some(false) then Fail
      else if vwap == Some(true) && ma20 == Some(true) then Pass
      else NoData
    case Either =>
      if vwap == Some(true) || ma20 == Some(true) then Pass
      else if vwap == Some(false) && ma20 == Some(false) then Fail
      else NoData
  }

  function StateOf(c: Condition, b: Breakout, threshold: real, s: Settings): State {
    match c
    case Close => if b.recentClose.None? then NoData else Verdict(b.recentClose.value >= threshold)
    case Hold =>
      if b.minutesAbove.None? then NoData else Verdict(b.minutesAbove.value >= s.holdMinutes)
    case Volume =>
      if b.currentVolume.None? || b.previousVolume.None? || b.previousVolume.value <= 0.0 then NoData
      else Verdict(
        IncreasePercent(b.previousVolume.value, b.currentVolume.value) >= s.minVolumeIncrease)
    case Average => AverageState(Above(b.last, b.vwap), Above(b.last, b.ma20), s.averageRule)
    case Pullback => if b.pulledBack.None? then NoData else Verdict(b.pulledBack.value)
  }

  function ModeOf(c: Condition, s: Settings): Mode {
    match c
    case Close => if s.requireClose then s.closeMode else Off
    case Hold => if s.requireClose && s.holdMinutes > 0.0 then s.closeMode else Off
    case Volume => if s.requireVolume then s.volumeMode else Off
    case Average => if s.requireAverage && !s.averageRule.Neither? then s.averageMode else Off
    case Pullback => if s.requirePullback then s.pullbackMode else Off
  }

  // ---- reasons -----------------------------------------------------------------

  function Report(when: bool, reason: string): seq<string> { if when then [reason] else [] }

  predicate Unknown(c: Condition, b: Breakout, threshold: real, s: Settings) {
    StateOf(c, b, threshold, s).NoData? && ModeOf(c, s) != Off
  }

  function MissingReasons(b: Breakout, threshold: real, s: Settings): seq<string> {
    Report(Unknown(Close, b, threshold, s), "BREAKOUT_CLOSE_DATA_MISSING")
    + Report(Unknown(Hold, b, threshold, s), "BREAKOUT_HOLD_DATA_MISSING")
    + Report(Unknown(Volume, b, threshold, s), "VOLUME_INCREASE_DATA_MISSING")
    + Report(Unknown(Average, b, threshold, s), "VWAP_MA20_DATA_MISSING")
    + Report(Unknown(Pullback, b, threshold, s), "PULLBACK_REBREAK_DATA_MISSING")
  }

  function BlockReason(missing: seq<string>): string
    requires missing != []
  {
    if |missing| > 1 then "REQUIRED_INTRADAY_DATA_MISSING" else missing[0]
  }

  function ChangeFromOpen(b: Breakout): real {
    if b.open <= 0.0 then 0.0 else (b.last - b.open) / b.open
  }

  predicate Overheated(b: Breakout, s: Settings) { ChangeFromOpen(b) > s.maxChange }

  /** A failed close names the reason before a failed hold; both count in the close condition's mode. */
  predicate ConfirmationFails(b: Breakout, threshold: real, s: Settings) {
    StateOf(Close, b, threshold, s).Fail? || StateOf(Hold, b, threshold, s).Fail?
  }

  function ConfirmationReason(b: Breakout, threshold: real, s: Settings): string {
    if StateOf(Close, b, threshold, s).Fail? then "BREAKOUT_CLOSE_FAILED"
    else "BREAKOUT_HOLD_FAILED"
  }

  function ConfirmationFailure(mode: Mode, b: Breakout, threshold: real, s: Settings): seq<string> {
    Report(
      ConfirmationFails(b, threshold, s) && ModeOf(Close, s) == mode,
      ConfirmationReason(b, threshold, s))
  }

  function FailureOf(c: Condition, reason: string, mode: Mode, b: Breakout, threshold: real, s: Settings)
    : seq<string>
  {
    Report(StateOf(c, b, threshold, s).Fail? && ModeOf(c, s) == mode, reason)
  }

  /** What fails in conditions of the given mode, in the order the conditions are applied. */
  function FailuresAt(mode: Mode, b: Breakout, threshold: real, s: Settings): seq<string>
    requires mode != Off
  {
    Report(Overheated(b, s) && s.overheatMode == mode, "OVERHEAT_LIMIT_EXCEEDED")
    + ConfirmationFailure(mode, b, threshold, s)
    + FailureOf(Volume, "VOLUME_INCREASE_FAILED", mode, b, threshold, s)
    + FailureOf(Average, "VWAP_MA20_FAILED", mode, b, threshold, s)
    + FailureOf(Pullback, "PULLBACK_REBREAK_FAILED", mode, b, threshold, s)
  }

  lemma FailuresJoin(before: seq<string>, mode: Mode, b: Breakout, threshold: real, s: Settings)
    requires mode != Off
    ensures before + FailuresAt(mode, b, threshold, s)
            == before + Report(Overheated(b, s) && s.overheatMode == mode, "OVERHEAT_LIMIT_EXCEEDED")
               + ConfirmationFailure(mode, b, threshold, s)
               + FailureOf(Volume, "VOLUME_INCREASE_FAILED", mode, b, threshold, s)
               + FailureOf(Average, "VWAP_MA20_FAILED", mode, b, threshold, s)
               + FailureOf(Pullback, "PULLBACK_REBREAK_FAILED", mode, b, threshold, s)
  {
    JoinFive(before,
      Report(Overheated(b, s) && s.overheatMode == mode, "OVERHEAT_LIMIT_EXCEEDED"),
      ConfirmationFailure(mode, b, threshold, s),
      FailureOf(Volume, "VOLUME_INCREASE_FAILED", mode, b, threshold, s),
      FailureOf(Average, "VWAP_MA20_FAILED", mode, b, threshold, s),
      FailureOf(Pullback, "PULLBACK_REBREAK_FAILED", mode, b, threshold, s));
  }

  lemma JoinFive<T>(h: seq<T>, a: seq<T>, b: seq<T>, c: seq<T>, d: seq<T>, e: seq<T>)
    ensures h + (a + b + c + d + e) == h + a + b + c + d + e
  {
  }

  function Evaluate(b: Breakout, threshold: real, s: Settings): Option<Evaluation> {
    var policy := ResolvePolicy(s.policyText, s.appMode, s.mock);
    if policy.None? then None
    else
      var missing := MissingReasons(b, threshold, s);
      var blocked := policy.value.BlockMissing? && missing != [];
      var hard := FailuresAt(HardFilter, b, threshold, s)
                  + if blocked then [BlockReason(missing)] else [];
      var soft := FailuresAt(SoftScore, b, threshold, s);
      var logs := FailuresAt(LogOnly, b, threshold, s)
                  + if policy.value.LogMissing? then missing else [];
      Some(Evaluation(hard == [], -5.0 * |soft| as real, hard, soft, logs, missing))
  }

  /** The three lists the conditions append to. */
  class Findings {
    var hard: seq<string>
    var soft: seq<string>
    var logs: seq<string>

    constructor ()
      ensures hard == [] && soft == [] && logs == []
    {
      hard, soft, logs := [], [], [];
    }

    method ApplyCondition(passed: bool, mode: Mode, reason: string)
      modifies this
      ensures hard == old(hard) + Report(!passed && mode == HardFilter, reason)
      ensures soft == old(soft) + Report(!passed && mode == SoftScore, reason)
      ensures logs == old(logs) + Report(!passed && mode == LogOnly, reason)
    {
      if passed || mode == Off {
        return;
      }
      if mode == HardFilter {
        hard := hard + [reason];
      } else if mode == SoftScore {
        soft := soft + [reason];
      } else {
        logs := logs + [reason];
      }
    }

    method ApplyConditionState(state: State, mode: Mode, reason: string)
      modifies this
      ensures hard == old(hard) + Report(state.Fail? && mode == HardFilter, reason)
      ensures soft == old(soft) + Report(state.Fail? && mode == SoftScore, reason)
      ensures logs == old(logs) + Report(state.Fail? && mode == LogOnly, reason)
    {
      if state != Fail {
        return;
      }
      ApplyCondition(false, mode, reason);
    }
  }

  method ApplyConfirmation(b: Breakout, threshold: real, s: Settings, found: Findings)
    modifies found
    ensures found.hard == old(found.hard) + ConfirmationFailure(HardFilter, b, threshold, s)
    ensures found.soft == old(found.soft) + ConfirmationFailure(SoftScore, b, threshold, s)
    ensures found.logs == old(found.logs) + ConfirmationFailure(LogOnly, b, threshold, s)
  {
    if StateOf(Close, b, threshold, s) == Fail {
      found.ApplyCondition(false, ModeOf(Close, s), "BREAKOUT_CLOSE_FAILED");
    } else if StateOf(Hold, b, threshold, s) == Fail {
      found.ApplyCondition(false, ModeOf(Close, s), "BREAKOUT_HOLD_FAILED");
    }
  }

  method ApplyConditions(b: Breakout, threshold: real, s: Settings, found: Findings)
    modifies found
    ensures found.hard == old(found.hard) + FailuresAt(HardFilter, b, threshold, s)
    ensures found.soft == old(found.soft) + FailuresAt(SoftScore, b, threshold, s)
    ensures found.logs == old(found.logs) + FailuresAt(LogOnly, b, threshold, s)
  {
    found.ApplyCondition(!Overheated(b, s), s.overheatMode, "OVERHEAT_LIMIT_EXCEEDED");
    ApplyConfirmation(b, threshold, s, found);
    found.ApplyConditionState(
      StateOf(Volume, b, threshold, s), ModeOf(Volume, s), "VOLUME_INCREASE_FAILED");
    found.ApplyConditionState(
      StateOf(Average, b, threshold, s), ModeOf(Average, s), "VWAP_MA20_FAILED");
    found.ApplyConditionState(
      StateOf(Pullback, b, threshold, s), ModeOf(Pullback, s), "PULLBACK_REBREAK_FAILED");
    FailuresJoin(old(found.hard), HardFilter, b, threshold, s);
    FailuresJoin(old(found.soft), SoftScore, b, threshold, s);
    FailuresJoin(old(found.logs), LogOnly, b, threshold, s);
  }

  method EntryTimingEvaluation(b: Breakout, threshold: real, s: Settings)
    returns (r: Option<Evaluation>)
    ensures r == Evaluate(b, threshold, s)
  {
    var policy := ResolvePolicy(s.policyText, s.appMode, s.mock);
    if policy.None? {
      return None;
    }
    var found := new Findings();
    ApplyConditions(b, threshold, s, found);
    assert found.hard == FailuresAt(HardFilter, b, threshold, s);
    assert found.soft == FailuresAt(SoftScore, b, threshold, s);
    assert found.logs == FailuresAt(LogOnly, b, threshold, s);
    var missing := MissingReasons(b, threshold, s);
    if missing != [] {
      if policy.value == BlockMissing {
        found.hard := found.hard + [BlockReason(missing)];
      } else {
        found.logs := found.logs + missing;
      }
    }
    assert found.logs + [] == found.logs && found.hard + [] == found.hard;
    r := Some(Evaluation(
      found.hard == [], -5.0 * |found.soft| as real, found.hard, found.soft, found.logs, missing));
  }

  // ---- missing data fails closed -------------------------------------------------

  predicate HardFailure(b: Breakout, threshold: real, s: Settings) {
    || (Overheated(b, s) && s.overheatMode == HardFilter)
    || (ConfirmationFails(b, threshold, s) && ModeOf(Close, s) == HardFilter)
    || exists c :: c in {Volume, Average, Pullback} && ModeOf(c, s) == HardFilter
                   && StateOf(c, b, threshold, s).Fail?
  }

  predicate AnyUnknown(b: Breakout, threshold: real, s: Settings) {
    exists c :: c in {Close, Hold, Volume, Average, Pullback} && Unknown(c, b, threshold, s)
  }

  lemma AllowedExactly(b: Breakout, threshold: real, s: Settings)
    requires Evaluate(b, threshold, s).Some?
    ensures Evaluate(b, threshold, s).value.allowed
            <==> !HardFailure(b, threshold, s)
                 && (ResolvePolicy(s.policyText, s.appMode, s.mock) == Some(BlockMissing)
                     ==> !AnyUnknown(b, threshold, s))
  {
  }

  /**
   * Outside mock trading in test mode every allowed entry has an answer to every condition that is
   * on, and passes every hard filter that is on.
   */
  lemma MissingDataFailsClosed(b: Breakout, threshold: real, s: Settings, c: Condition)
    requires !(s.appMode == "test" && s.mock)
    requires Evaluate(b, threshold, s).Some? && Evaluate(b, threshold, s).value.allowed
    ensures ModeOf(c, s) != Off ==> StateOf(c, b, threshold, s) != NoData
    ensures ModeOf(c, s) == HardFilter ==> StateOf(c, b, threshold, s) == Pass
    ensures s.overheatMode == HardFilter ==> ChangeFromOpen(b) <= s.maxChange
  {
  }

  /** The two differ at most in what decides the missing-data policy. */
  predicate SameButPolicy(s: Settings, t: Settings) {
    t == s.(policyText := t.policyText, appMode := t.appMode, mock := t.mock)
  }

  lemma PolicyLeavesConditions(b: Breakout, threshold: real, s: Settings, t: Settings)
    requires SameButPolicy(s, t)
    ensures forall c :: StateOf(c, b, threshold, s) == StateOf(c, b, threshold, t)
    ensures forall c :: ModeOf(c, s) == ModeOf(c, t)
    ensures MissingReasons(b, threshold, s) == MissingReasons(b, threshold, t)
  {
  }

  lemma PolicyLeavesFailures(b: Breakout, threshold: real, s: Settings, t: Settings, mode: Mode)
    requires SameButPolicy(s, t) && mode != Off
    ensures FailuresAt(mode, b, threshold, s) == FailuresAt(mode, b, threshold, t)
  {
    PolicyLeavesConditions(b, threshold, s, t);
    assert Overheated(b, s) == Overheated(b, t);
  }

  /** An entry allowed with missing data blocked is allowed, at the same score, when it is logged. */
  lemma BlockingIsStricter(b: Breakout, threshold: real, s: Settings, t: Settings)
    requires SameButPolicy(s, t)
    requires ResolvePolicy(s.policyText, s.appMode, s.mock) == Some(BlockMissing)
    requires ResolvePolicy(t.policyText, t.appMode, t.mock) == Some(LogMissing)
    ensures var blocking, logging := Evaluate(b, threshold, s).value, Evaluate(b, threshold, t).value;
            && logging.adjustment == blocking.adjustment
            && (blocking.allowed ==> logging.allowed)
            && (logging.allowed && !blocking.allowed ==>
                  blocking.missing != [] && blocking.hard == [BlockReason(blocking.missing)])
  {
    PolicyLeavesConditions(b, threshold, s, t);
    PolicyLeavesFailures(b, threshold, s, t, HardFilter);
    PolicyLeavesFailures(b, threshold, s, t, SoftScore);
  }

  // ---- filling in absent fields ------------------------------------------------------

  predicate Fills<T(==)>(before: Option<T>, after: Option<T>) { before.Some? ==> after == before }

  /** `after` is `before` with some absent fields filled in. */
  predicate Filled(before: Breakout, after: Breakout) {
    && after.last == before.last && after.open == before.open
    && after.previousHigh == before.previousHigh && after.previousLow == before.previousLow
    && Fills(before.minutesAbove, after.minutesAbove)
    && Fills(before.recentClose, after.recentClose)
    && Fills(before.currentVolume, after.currentVolume)
    && Fills(before.previousVolume, after.previousVolume)
    && Fills(before.vwap, after.vwap) && Fills(before.ma20, after.ma20)
    && Fills(before.pulledBack, after.pulledBack)
  }

  lemma AnswersNeverFlip(
    before: Breakout, after: Breakout, threshold: real, s: Settings, c: Condition)
    requires Filled(before, after)
    requires StateOf(c, before, threshold, s) != NoData
    ensures StateOf(c, after, threshold, s) == StateOf(c, before, threshold, s)
  {
  }

  lemma FailuresStay(before: Breakout, after: Breakout, threshold: real, s: Settings)
    requires Filled(before, after)
    ensures HardFailure(before, threshold, s) ==> HardFailure(after, threshold, s)
    ensures |FailuresAt(SoftScore, before, threshold, s)|
            <= |FailuresAt(SoftScore, after, threshold, s)|
  {
    forall c: Condition | StateOf(c, before, threshold, s) != NoData
      ensures StateOf(c, after, threshold, s) == StateOf(c, before, threshold, s)
    {
      AnswersNeverFlip(before, after, threshold, s, c);
    }
    assert ConfirmationFails(before, threshold, s) ==> ConfirmationFails(after, threshold, s);
  }

  /** While missing data is only logged, more data never lets a blocked entry through. */
  lemma MoreDataNeverUnblocks(before: Breakout, after: Breakout, threshold: real, s: Settings)
    requires Filled(before, after)
    requires ResolvePolicy(s.policyText, s.appMode, s.mock) == Some(LogMissing)
    ensures Evaluate(after, threshold, s).value.allowed ==> Evaluate(before, threshold, s).value.allowed
    ensures Evaluate(after, threshold, s).value.adjustment
            <= Evaluate(before, threshold, s).value.adjustment
  {
    AllowedExactly(before, threshold, s);
    AllowedExactly(after, threshold, s);
    FailuresStay(before, after, threshold, s);
  }

  /**
   * The hold condition is off, yet a hold time that was absent arrives and is too short: the
   * confirmation then fails in the close condition's mode.
   */
  predicate HoldSurprise(before: Breakout, after: Breakout, s: Settings) {
    && s.holdMinutes <= 0.0 && before.minutesAbove.None?
    && after.minutesAbove.Some? && after.minutesAbove.value < s.holdMinutes
  }

  lemma KnownAnswersStay(
    before: Breakout, after: Breakout, threshold: real, s: Settings, c: Condition)
    requires Filled(before, after) && !AnyUnknown(before, threshold, s) && ModeOf(c, s) != Off
    ensures StateOf(c, after, threshold, s) == StateOf(c, before, threshold, s) != NoData
  {
    assert !Unknown(c, before, threshold, s);
    AnswersNeverFlip(before, after, threshold, s, c);
  }

  lemma ConfirmationAfterFilling(before: Breakout, after: Breakout, threshold: real, s: Settings)
    requires Filled(before, after) && !AnyUnknown(before, threshold, s)
    requires ModeOf(Close, s) != Off
    ensures StateOf(Close, after, threshold, s) == StateOf(Close, before, threshold, s) != NoData
    ensures ConfirmationFails(after, threshold, s)
            <==> ConfirmationFails(before, threshold, s) || HoldSurprise(before, after, s)
  {
    KnownAnswersStay(before, after, threshold, s, Close);
    if s.holdMinutes > 0.0 {
      KnownAnswersStay(before, after, threshold, s, Hold);
    }
  }

  lemma AnswersStay(before: Breakout, after: Breakout, threshold: real, s: Settings)
    requires Filled(before, after) && !AnyUnknown(before, threshold, s)
    ensures !AnyUnknown(after, threshold, s)
    ensures forall c :: ModeOf(c, s) != Off ==>
                          StateOf(c, after, threshold, s) == StateOf(c, before, threshold, s) != NoData
  {
    forall c | ModeOf(c, s) != Off
      ensures StateOf(c, after, threshold, s) == StateOf(c, before, threshold, s) != NoData
    {
      KnownAnswersStay(before, after, threshold, s, c);
    }
  }

  lemma HardAfterFilling(before: Breakout, after: Breakout, threshold: real, s: Settings)
    requires Filled(before, after)
    requires !AnyUnknown(before, threshold, s) && !HardFailure(before, threshold, s)
    ensures HardFailure(after, threshold, s)
            <==> ModeOf(Close, s) == HardFilter && HoldSurprise(before, after, s)
  {
    AnswersStay(before, after, threshold, s);
    if ModeOf(Close, s) != Off {
      ConfirmationAfterFilling(before, after, threshold, s);
    }
  }

  /** How many soft conditions other than the confirmation fail. */
  function OtherSoft(b: Breakout, threshold: real, s: Settings): seq<string> {
    FailureOf(Volume, "VOLUME_INCREASE_FAILED", SoftScore, b, threshold, s)
    + FailureOf(Average, "VWAP_MA20_FAILED", SoftScore, b, threshold, s)
    + FailureOf(Pullback, "PULLBACK_REBREAK_FAILED", SoftScore, b, threshold, s)
  }

  lemma SoftSplit(b: Breakout, threshold: real, s: Settings)
    ensures |FailuresAt(SoftScore, b, threshold, s)|
            == (if Overheated(b, s) && s.overheatMode == SoftScore then 1 else 0)
               + (if ConfirmationFails(b, threshold, s) && ModeOf(Close, s) == SoftScore then 1 else 0)
               + |OtherSoft(b, threshold, s)|
  {
  }

  lemma SoftAfterFilling(before: Breakout, after: Breakout, threshold: real, s: Settings)
    requires Filled(before, after) && !AnyUnknown(before, threshold, s)
    ensures |FailuresAt(SoftScore, after, threshold, s)|
            == |FailuresAt(SoftScore, before, threshold, s)|
            <==> !(ModeOf(Close, s) == SoftScore && HoldSurprise(before, after, s)
                   && StateOf(Close, before, threshold, s) == Pass)
  {
    AnswersStay(before, after, threshold, s);
    SoftSplit(before, threshold, s);
    SoftSplit(after, threshold, s);
    assert OtherSoft(before, threshold, s) == OtherSoft(after, threshold, s);
    assert Overheated(before, s) == Overheated(after, s);
    if ModeOf(Close, s) != Off {
      ConfirmationAfterFilling(before, after, threshold, s);
    }
  }

  /**
   * An entry allowed with missing data blocked keeps its verdict and its score when absent fields
   * are filled in, except exactly when a short hold time turns up while the hold condition is off.
   */
  lemma FillingKeepsVerdictIff(before: Breakout, after: Breakout, threshold: real, s: Settings)
    requires Filled(before, after)
    requires ResolvePolicy(s.policyText, s.appMode, s.mock) == Some(BlockMissing)
    requires Evaluate(before, threshold, s).value.allowed
    ensures Evaluate(after, threshold, s).Some?
    ensures Evaluate(after, threshold, s).value.allowed
            <==> !(ModeOf(Close, s) == HardFilter && HoldSurprise(before, after, s))
    ensures Evaluate(after, threshold, s).value.adjustment
            == Evaluate(before, threshold, s).value.adjustment
            <==> !(ModeOf(Close, s) == SoftScore && HoldSurprise(before, after, s)
                   && StateOf(Close, before, threshold, s) == Pass)
  {
    AllowedExactly(before, threshold, s);
    AllowedExactly(after, threshold, s);
    AnswersStay(before, after, threshold, s);
    HardAfterFilling(before, after, threshold, s);
    SoftAfterFilling(before, after, threshold, s);
  }

  /**
   * So no hold time that is not negative changes an entry that is allowed with missing data blocked,
   * nor does filling in any other field.
   */
  lemma FillingKeepsVerdict(before: Breakout, after: Breakout, threshold: real, s: Settings)
    requires Filled(before, after)
    requires ResolvePolicy(s.policyText, s.appMode, s.mock) == Some(BlockMissing)
    requires Evaluate(before, threshold, s).value.allowed
    requires after.minutesAbove.None? || after.minutesAbove.value >= 0.0
    ensures Evaluate(after, threshold, s).Some? && Evaluate(after, threshold, s).value.allowed
    ensures Evaluate(after, threshold, s).value.adjustment
            == Evaluate(before, threshold, s).value.adjustment
  {
    FillingKeepsVerdictIff(before, after, threshold, s);
  }

  /** The boundary of the type: a negative hold time blocks an entry that nothing else speaks against. */
  lemma FillingCanBlock() returns (before: Breakout, after: Breakout, s: Settings)
    ensures Filled(before, after) && s.appMode == "real"
    ensures Evaluate(before, 10.0, s).Some? && Evaluate(after, 10.0, s).Some?
    ensures Evaluate(before, 10.0, s).value.allowed && !Evaluate(after, 10.0, s).value.allowed
  {
    before := Breakout(10.0, 10.0, 10.0, 9.0, None, Some(10.0), None, None, None, None, None);
    after := before.(minutesAbove := Some(-1.0));
    s := Settings(
      "AUTO", "real", false, 0.0, 0.0, 1.0, Neither, true, false, false, false, Off, HardFilter, Off,
      Off, Off);
    assert StateOf(Close, before, 10.0, s) == Pass && StateOf(Hold, before, 10.0, s) == NoData;
    assert !AnyUnknown(before, 10.0, s) && !HardFailure(before, 10.0, s);
    AllowedExactly(before, 10.0, s);
    assert HoldSurprise(before, after, s);
    FillingKeepsVerdictIff(before, after, 10.0, s);
  }
}
