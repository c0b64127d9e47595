/** What one step of an intraday round does: the refusal or acceptance of an intent, and its log. */
module RoundMeaning {
  import opened Common
  import opened IntradayLimiter
  import opened OrderExecutor

  // ---- accepting and refusing --------------------------------------------------

  predicate IsAccepted(ticker: string, accepted: seq<Intent>) {
    exists i :: 0 <= i < |accepted| && accepted[i].ticker == ticker
  }

  /** A held ticker may be added to: when that is on, its profit is enough, and not added to already. */
  predicate MayAdd(ticker: string, r: Round, s: Settings) {
    ticker in r.held && s.pyramiding && r.held[ticker] >= s.minProfit && !(ticker in r.added)
  }

  /** The first thing that stands against an intent: the cap, an open order, its position, a repeat. */
  predicate Stands(reason: Reason, ticker: string, accepted: seq<Intent>, r: Round, s: Settings) {
    match reason
    case RoundLimit => false
    case CapReached => |accepted| >= s.cap
    case UnfilledOrder => |accepted| < s.cap && ticker in r.unfilled
    case PyramidingBlocked =>
      |accepted| < s.cap && ticker !in r.unfilled && ticker in r.held && !MayAdd(ticker, r, s)
    case AlreadySubmitted =>
      |accepted| < s.cap && ticker !in r.unfilled && ticker !in r.held
      && (ticker in r.submitted || IsAccepted(ticker, accepted))
  }

  /** The intent as it is, with its kind among the reasons. */
  predicate IsMarked(marked: Intent, intent: Intent, kind: string) {
    && marked.ticker == intent.ticker && marked.quantity == intent.quantity
    && marked.limitPrice == intent.limitPrice
    && marked.reasons == intent.reasons + if kind in intent.reasons then [] else [kind]
  }

  /** The next intent is refused for what stands against it first, or is taken and marked. */
  ghost predicate Decided(before: Outcome, after: Outcome, intent: Intent, r: Round, s: Settings) {
    || (exists reason :: Stands(reason, intent.ticker, before.accepted, r, s)
          && after.accepted == before.accepted
          && after.diagnostics == before.diagnostics + [Diagnostic(intent.ticker, reason)])
    || ((forall reason :: !Stands(reason, intent.ticker, before.accepted, r, s))
        && after.diagnostics == before.diagnostics
        && exists marked :: after.accepted == before.accepted + [marked]
             && IsMarked(marked, intent,
                  if intent.ticker in r.held then "PYRAMIDING" else "INTRADAY_RECHECK"))
  }

  lemma RefusalStated(ticker: string, accepted: seq<Intent>, r: Round, s: Settings, reason: Reason)
    ensures Refusal(ticker, accepted, r, s) == Some(reason)
       <==> Stands(reason, ticker, accepted, r, s)
  {
    assert ticker in Tickers(accepted) <==> IsAccepted(ticker, accepted);
  }

  lemma StepStated(before: Outcome, intent: Intent, r: Round, s: Settings)
    ensures Decided(before, Add(before, intent, r, s), intent, r, s)
  {
    var refusal := Refusal(intent.ticker, before.accepted, r, s);
    forall reason
      ensures refusal == Some(reason) <==> Stands(reason, intent.ticker, before.accepted, r, s)
    {
      RefusalStated(intent.ticker, before.accepted, r, s, reason);
    }
    if refusal.None? {
      assert IsMarked(Accepted(intent, r), intent,
          if intent.ticker in r.held then "PYRAMIDING" else "INTRADAY_RECHECK");
    } else {
      assert Stands(refusal.value, intent.ticker, before.accepted, r, s);
    }
  }

  /** The steps of a round: it starts with nothing, and each step decides on the next candidate. */
  ghost predicate AreSteps(steps: seq<Outcome>, candidates: seq<Intent>, r: Round, s: Settings) {
    && |steps| == |candidates| + 1 && steps[0] == Outcome([], [])
    && forall k :: 0 <= k < |candidates| ==> Decided(steps[k], steps[k + 1], candidates[k], r, s)
  }

  lemma {:induction false} StepsStated(candidates: seq<Intent>, r: Round, s: Settings)
    returns (steps: seq<Outcome>)
    ensures AreSteps(steps, candidates, r, s)
    ensures steps[|candidates|] == Limited(candidates, r, s)
  {
    if candidates == [] {
      steps := [Outcome([], [])];
    } else {
      var front, last := candidates[..|candidates| - 1], candidates[|candidates| - 1];
      var before := StepsStated(front, r, s);
      StepStated(before[|front|], last, r, s);
      steps := before + [Limited(candidates, r, s)];
      forall k | 0 <= k < |candidates| ensures Decided(steps[k], steps[k + 1], candidates[k], r, s) {
        if k < |front| {
          assert candidates[k] == front[k];
        }
      }
    }
  }

  /** A round decides candidate by candidate, unless the rounds of the day are used up. */
  lemma RoundStated(candidates: seq<Intent>, rounds: int, r: Round, s: Settings)
    returns (steps: seq<Outcome>)
    ensures AreSteps(steps, candidates, r, s)
    ensures rounds < s.maxRounds ==> Limit(candidates, rounds, r, s) == steps[|candidates|]
    ensures rounds >= s.maxRounds ==>
              var o := Limit(candidates, rounds, r, s);
              && o.accepted == [] && |o.diagnostics| == |candidates|
              && forall k :: 0 <= k < |candidates| ==>
                   o.diagnostics[k] == Diagnostic(candidates[k].ticker, RoundLimit)
  {
    steps := StepsStated(candidates, r, s);
  }

  // ---- the log of an intent ----------------------------------------------------

  /** A failed attempt is logged twice: the error, and the retry or that there is none left. */
  predicate LogsFailure(error: Log, next: Log, ticker: string, attempt: nat, limit: nat) {
    && error == ApiError(ticker, attempt, limit)
    && next == if attempt < limit then Retry(ticker, attempt + 1, limit)
               else OrderFailed(ticker, attempt, limit)
  }

  ghost predicate LogsFailures(logs: seq<Log>, ticker: string, failures: nat, limit: nat) {
    && |logs| == 2 * failures
    && forall i :: 0 <= i < failures ==>
                     LogsFailure(logs[2 * i], logs[2 * i + 1], ticker, i, limit)
  }

  lemma {:induction false} FailureLogsStated(ticker: string, failures: nat, limit: nat)
    ensures LogsFailures(FailureLogs(ticker, failures, limit), ticker, failures, limit)
  {
    if failures > 0 {
      var before, logs := FailureLogs(ticker, failures - 1, limit), FailureLogs(ticker, failures, limit);
      FailureLogsStated(ticker, failures - 1, limit);
      assert |logs| == |before| + 2;
      forall i | 0 <= i < failures ensures LogsFailure(logs[2 * i], logs[2 * i + 1], ticker, i, limit) {
        if i < failures - 1 {
          assert logs[2 * i] == before[2 * i] && logs[2 * i + 1] == before[2 * i + 1];
        }
      }
    }
  }

  /** The check of an intent is logged when it says anything; all but a failed quote blocks. */
  predicate IsChecked(logs: seq<Log>, ticker: string, verdict: Option<string>, blocked: bool) {
    match verdict
    case None => logs == [] && !blocked
    case Some(reason) =>
      logs == [Protection(ticker, reason, blocked)] && (blocked <==> reason != "QUOTE_LOOKUP_FAILED")
  }

  /** After the check come the failures of the submits, and then the answer of the last if it succeeds. */
  ghost predicate LogsFate(
    logs: seq<Log>, check: seq<Log>, failures: seq<Log>, intent: Intent, fate: Fate, w: World)
  {
    match fate
    case Blocked => logs == check
    case Exhausted(first) =>
      logs == check + failures && LogsFailures(failures, intent.ticker, Attempts(w), Retries(w))
    case Traded(first, retries) =>
      && w.reply(first + retries).Some?
      && logs == check + failures + [Submitted(intent.ticker, w.reply(first + retries).value)]
      && LogsFailures(failures, intent.ticker, retries, Retries(w))
  }

  /** What an intent adds to the log, by what its check says and how its submits go. */
  ghost predicate LogsIntent(
    logs: seq<Log>, intent: Intent, verdict: Option<string>, fate: Fate, w: World)
  {
    exists check, failures ::
      IsChecked(check, intent.ticker, verdict, fate.Blocked?)
      && LogsFate(logs, check, failures, intent, fate, w)
  }

  lemma SendStated(run: Run, intent: Intent, w: World, check: seq<Log>, logs: seq<Log>)
    requires run.logs == logs + check
    ensures var after := Send(run, intent, w);
            && run.fates < after.fates && !after.fates[|run.fates|].Blocked? && logs <= after.logs
            && exists failures ::
                 LogsFate(after.logs[|logs|..], check, failures, intent, after.fates[|run.fates|], w)
  {
    var after, f := Send(run, intent, w), Failures(w, |run.calls|, Attempts(w));
    var failures := FailureLogs(intent.ticker, f, Retries(w));
    FailureLogsStated(intent.ticker, f, Retries(w));
    var answer := if f == Attempts(w) then []
                  else [Submitted(intent.ticker, w.reply(|run.calls| + f).value)];
    assert after.logs == logs + (check + failures + answer);
    assert LogsFate(
        after.logs[|logs|..], check, failures, intent, after.fates[|run.fates|], w);
  }

  /** The log of every intent tells its check, its failures and its answer. */
  lemma LogStated(run: Run, intent: Intent, w: World)
    ensures var after := Handle(run, intent, w);
            && run.fates < after.fates && run.logs <= after.logs
            && LogsIntent(
                 after.logs[|run.logs|..], intent, w.verdict(run.checks), after.fates[|run.fates|], w)
  {
    var after, verdict := Handle(run, intent, w), w.verdict(run.checks);
    var check := ProtectionLogs(intent, verdict);
    assert IsChecked(check, intent.ticker, verdict, Blocks(verdict));
    if Blocks(verdict) {
      assert LogsFate(after.logs[|run.logs|..], check, [], intent, after.fates[|run.fates|], w);
    } else {
      SendStated(Checked(run, intent, w), intent, w, check, run.logs);
    }
  }
}
