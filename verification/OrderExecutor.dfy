/** Submitting accepted intents with retries: what is sent, what is traded, what is logged. */
module OrderExecutor {
  import opened Common
  import opened IntradayLimiter

  datatype Log =
    | Protection(ticker: string, reason: string, blocking: bool)
    | ApiError(ticker: string, attempt: nat, limit: nat)
    | Retry(ticker: string, attempt: nat, limit: nat)
    | OrderFailed(ticker: string, attempt: nat, limit: nat)
    | Submitted(ticker: string, response: string)
    | Summary(tickers: seq<string>)

  datatype Trade = Trade(
    ticker: string, price: real, quantity: int, reasons: seq<string>, retries: nat)

  /**
   * The world outside: what each submit in turn answers (None when it raises), and what each
   * protection check in turn reports.
   */
  datatype World = World(reply: nat -> Option<string>, verdict: nat -> Option<string>, retries: int)

  /** What became of an intent; `first` is the number of submits made before it. */
  datatype Fate = Blocked | Exhausted(first: nat) | Traded(first: nat, retries: nat)

  datatype Run = Run(
    checks: nat, calls: seq<Intent>, logs: seq<Log>, trades: seq<Trade>, fates: seq<Fate>)

  function Retries(w: World): nat { Max(0, w.retries) }

  function Attempts(w: World): nat { Retries(w) + 1 }

  /** The submits from the `from`-th to before the `to`-th all fail. */
  ghost predicate AllFail(w: World, from: nat, to: nat) {
    forall k :: from <= k < to ==> w.reply(k).None?
  }

  /** How many of up to `limit` submits fail in a row from the `n`-th on. */
  function Failures(w: World, n: nat, limit: nat): (f: nat)
    ensures f <= limit && AllFail(w, n, n + f)
    ensures f < limit ==> w.reply(n + f).Some?
    decreases limit
  {
    if limit == 0 || w.reply(n).Some? then 0 else Failures(w, n + 1, limit - 1) + 1
  }

  lemma FailuresAre(w: World, n: nat, limit: nat, f: nat)
    requires f <= limit && AllFail(w, n, n + f)
    requires f < limit ==> w.reply(n + f).Some?
    ensures Failures(w, n, limit) == f
  {
  }

  function Repeat(intent: Intent, n: nat): seq<Intent> { seq(n, i => intent) }

  /** The log of the first `f` failed attempts. */
  function FailureLogs(ticker: string, f: nat, limit: nat): seq<Log> {
    if f == 0 then []
    else
      FailureLogs(ticker, f - 1, limit) + [ApiError(ticker, f - 1, limit)]
      + [if f - 1 >= limit then OrderFailed(ticker, f - 1, limit) else Retry(ticker, f, limit)]
  }

  predicate Blocks(verdict: Option<string>) {
    verdict.Some? && verdict.value != "QUOTE_LOOKUP_FAILED"
  }

  function ProtectionLogs(intent: Intent, verdict: Option<string>): seq<Log> {
    if verdict.None? then [] else [Protection(intent.ticker, verdict.value, Blocks(verdict))]
  }

  function TradeFor(intent: Intent, retries: nat): Trade {
    Trade(intent.ticker, intent.limitPrice, intent.quantity, intent.reasons, retries)
  }

  /** The submits of one intent that is not blocked. */
  function Send(run: Run, intent: Intent, w: World): Run {
    var n := |run.calls|;
    var f := Failures(w, n, Attempts(w));
    var logs := run.logs + FailureLogs(intent.ticker, f, Retries(w));
    if f == Attempts(w) then
      run.(calls := run.calls + Repeat(intent, f), logs := logs, fates := run.fates + [Exhausted(n)])
    else
      run.(
        calls := run.calls + Repeat(intent, f + 1),
        logs := logs + [Submitted(intent.ticker, w.reply(n + f).value)],
        trades := run.trades + [TradeFor(intent, f)], fates := run.fates + [Traded(n, f)])
  }

  function Checked(run: Run, intent: Intent, w: World): Run {
    run.(
      checks := run.checks + 1,
      logs := run.logs + ProtectionLogs(intent, w.verdict(run.checks)))
  }

  function Handle(run: Run, intent: Intent, w: World): Run {
    var checked := Checked(run, intent, w);
    if Blocks(w.verdict(run.checks)) then checked.(fates := run.fates + [Blocked])
    else Send(checked, intent, w)
  }

  function HandleAll(intents: seq<Intent>, start: Run, w: World): Run {
    if intents == [] then start
    else
      Handle(HandleAll(intents[..|intents| - 1], start, w), intents[|intents| - 1], w)
  }

  class BuyIntentExecutor {
    const world: World
    var checks: nat
    var calls: seq<Intent>
    var logs: seq<Log>
    var savedTrades: seq<Trade>

    constructor (w: World)
      ensures world == w && checks == 0 && calls == [] && logs == [] && savedTrades == []
    {
      world, checks, calls, logs, savedTrades := w, 0, [], [], [];
    }

    /** One call of the order API; None stands for an exception. */
    method SubmitOrder(intent: Intent) returns (response: Option<string>)
      modifies this`calls
      ensures calls == old(calls) + [intent]
      ensures response == world.reply(|old(calls)|)
    {
      response := world.reply(|calls|);
      calls := calls + [intent];
    }

    method SubmitWithRetry(intent: Intent) returns (result: Option<(nat, string)>)
      modifies this`calls, this`logs
      ensures var n, f := |old(calls)|, Failures(world, |old(calls)|, Attempts(world));
              if f == Attempts(world) then
                && result == None && calls == old(calls) + Repeat(intent, f)
                && logs == old(logs) + FailureLogs(intent.ticker, f, Retries(world))
              else
                && result == Some((f, world.reply(n + f).value))
                && calls == old(calls) + Repeat(intent, f + 1)
                && logs == old(logs) + FailureLogs(intent.ticker, f, Retries(world))
    {
      var limit := Retries(world);
      ghost var n := |calls|;
      for attempt := 0 to limit + 1
        invariant calls == old(calls) + Repeat(intent, attempt)
        invariant logs == old(logs) + FailureLogs(intent.ticker, attempt, limit)
        invariant AllFail(world, n, n + attempt)
      {
        var response := SubmitOrder(intent);
        assert calls == old(calls) + Repeat(intent, attempt + 1);
        if response.Some? {
          FailuresAre(world, n, Attempts(world), attempt);
          return Some((attempt, response.value));
        }
        LogFailure(intent, attempt, limit);
        if attempt >= limit {
          FailuresAre(world, n, Attempts(world), attempt + 1);
          return None;
        }
      }
      result := None;
    }

    method LogFailure(intent: Intent, attempt: nat, limit: nat)
      modifies this`logs
      ensures forall before :: old(logs) == before + FailureLogs(intent.ticker, attempt, limit) ==>
                                 logs == before + FailureLogs(intent.ticker, attempt + 1, limit)
    {
      logs := logs + [ApiError(intent.ticker, attempt, limit)];
      if attempt >= limit {
        logs := logs + [OrderFailed(intent.ticker, attempt, limit)];
      } else {
        logs := logs + [Retry(intent.ticker, attempt + 1, limit)];
      }
    }

    ghost predicate Shows(run: Run)
      reads this
    {
      checks == run.checks && calls == run.calls && logs == run.logs
    }

    method ExecuteOne(intent: Intent, ghost run: Run) returns (trade: Option<Trade>)
      requires Shows(run)
      modifies this`checks, this`calls, this`logs
      ensures Shows(Handle(run, intent, world))
      ensures Handle(run, intent, world).trades
              == run.trades + if trade.Some? then [trade.value] else []
    {
      var verdict := world.verdict(checks);
      checks := checks + 1;
      if verdict.Some? {
        logs := logs + [Protection(intent.ticker, verdict.value, Blocks(verdict))];
      }
      if Blocks(verdict) {
        return None;
      }
      assert logs == run.logs + ProtectionLogs(intent, verdict);
      trade := SendOne(intent, Checked(run, intent, world));
    }

    method SendOne(intent: Intent, ghost run: Run) returns (trade: Option<Trade>)
      requires Shows(run)
      modifies this`calls, this`logs
      ensures Shows(Send(run, intent, world))
      ensures Send(run, intent, world).trades
              == run.trades + if trade.Some? then [trade.value] else []
    {
      var result := SubmitWithRetry(intent);
      if result.None? {
        return None;
      }
      var (retries, response) := result.value;
      logs := logs + [Submitted(intent.ticker, response)];
      trade := Some(TradeFor(intent, retries));
    }

    /** The trades are returned and saved together, after every intent has been handled. */
    method Execute(intents: seq<Intent>) returns (trades: seq<Trade>)
      modifies this
      ensures var run := HandleAll(intents, Run(old(checks), old(calls), old(logs), [], []), world);
              && trades == run.trades && savedTrades == old(savedTrades) + trades
              && checks == run.checks && calls == run.calls
              && logs == run.logs + [Summary(Map(TradedTicker, trades))]
    {
      trades := [];
      ghost var start := Run(checks, calls, logs, [], []);
      for i := 0 to |intents|
        invariant savedTrades == old(savedTrades)
        invariant Shows(HandleAll(intents[..i], start, world))
        invariant trades == HandleAll(intents[..i], start, world).trades
      {
        assert intents[..i + 1][..i] == intents[..i];
        var trade := ExecuteOne(intents[i], HandleAll(intents[..i], start, world));
        if trade.Some? {
          trades := trades + [trade.value];
        }
      }
      assert intents[..|intents|] == intents;
      savedTrades := savedTrades + trades;
      logs := logs + [Summary(Map(TradedTicker, trades))];
    }
  }

  function TradedTicker(trade: Trade): string { trade.ticker }

  // ---- what every execution keeps ---------------------------------------------------------

  /** How many submits the intent cost. */
  function Cost(w: World): Fate -> int {
    (fate: Fate) =>
      match fate
      case Blocked => 0
      case Exhausted(_) => Attempts(w)
      case Traded(_, retries) => retries + 1
  }

  predicate IsTraded(fate: Fate) { fate.Traded? }

  /** The calls from `first` on are `n` submits of the intent. */
  ghost predicate Sent(calls: seq<Intent>, first: nat, n: nat, intent: Intent) {
    first + n <= |calls| && forall k :: first <= k < first + n ==> calls[k] == intent
  }

  /**
   * The fate tells what happened: blocked by the check, every allowed attempt failed, or exactly
   * `retries` failures and then a success.
   */
  ghost predicate Tells(fate: Fate, intent: Intent, check: nat, calls: seq<Intent>, w: World) {
    match fate
    case Blocked => Blocks(w.verdict(check))
    case Exhausted(first) =>
      && !Blocks(w.verdict(check)) && Sent(calls, first, Attempts(w), intent)
      && AllFail(w, first, first + Attempts(w))
    case Traded(first, retries) =>
      && !Blocks(w.verdict(check)) && retries <= Retries(w)
      && Sent(calls, first, retries + 1, intent)
      && AllFail(w, first, first + retries) && w.reply(first + retries).Some?
  }

  /** The trades of the traded intents, in order. */
  function TradesOf(intents: seq<Intent>, fates: seq<Fate>): seq<Trade>
    requires |intents| == |fates|
  {
    if fates == [] then []
    else
      var last := |fates| - 1;
      TradesOf(intents[..last], fates[..last])
      + if fates[last].Traded? then [TradeFor(intents[last], fates[last].retries)] else []
  }

  /** How many submits from the `from`-th to before the `to`-th succeed. */
  function Successes(w: World, from: nat, to: nat): nat
    requires from <= to
  {
    if from == to then 0
    else Successes(w, from, to - 1) + if w.reply(to - 1).Some? then 1 else 0
  }

  /** Each fate tells what happened to its intent. */
  ghost predicate Told(intents: seq<Intent>, start: Run, run: Run, w: World) {
    && |run.fates| == |intents| && run.checks == start.checks + |intents|
    && start.calls <= run.calls
    && forall i :: 0 <= i < |intents| ==>
                     Tells(run.fates[i], intents[i], start.checks + i, run.calls, w)
  }

  /** The submits of each intent start where those of the intents before it end. */
  ghost predicate Placed(start: Run, run: Run, w: World) {
    forall i :: 0 <= i < |run.fates| && !run.fates[i].Blocked? ==>
                  run.fates[i].first == |start.calls| + SumInt(Cost(w), run.fates[..i])
  }

  /** The trades are the traded intents, one for each submit that succeeded. */
  ghost predicate Counted(intents: seq<Intent>, start: Run, run: Run, w: World) {
    && |run.fates| == |intents| && |start.calls| <= |run.calls|
    && run.trades == TradesOf(intents, run.fates)
    && |run.calls| == |start.calls| + SumInt(Cost(w), run.fates)
    && |run.trades| == Successes(w, |start.calls|, |run.calls|)
    && |run.trades| == CountBy(IsTraded, run.fates)
  }

  lemma {:induction false} NoSuccess(w: World, from: nat, n: nat, to: nat)
    requires from <= n <= to && AllFail(w, n, to)
    ensures Successes(w, from, to) == Successes(w, from, n)
  {
    if n < to {
      NoSuccess(w, from, n, to - 1);
      assert w.reply(to - 1).None?;
    }
  }

  lemma TellsLater(fate: Fate, intent: Intent, check: nat, calls: seq<Intent>, more: seq<Intent>, w: World)
    requires Tells(fate, intent, check, calls, w)
    ensures Tells(fate, intent, check, calls + more, w)
  {
  }

  lemma TradesAppend(intents: seq<Intent>, fates: seq<Fate>, intent: Intent, fate: Fate)
    requires |intents| == |fates|
    ensures TradesOf(intents + [intent], fates + [fate])
            == TradesOf(intents, fates)
               + if fate.Traded? then [TradeFor(intent, fate.retries)] else []
  {
  }

  /** The fate `Handle` gives. */
  function FateOf(run: Run, w: World): Fate {
    var n := |run.calls|;
    var f := Failures(w, n, Attempts(w));
    if Blocks(w.verdict(run.checks)) then Blocked
    else if f == Attempts(w) then Exhausted(n)
    else Traded(n, f)
  }

  /** One intent: the calls and trades it adds, and what the successes become. */
  lemma HandleAdds(intent: Intent, from: nat, run: Run, w: World)
    requires from <= |run.calls|
    ensures var after, fate := Handle(run, intent, w), FateOf(run, w);
            && after.fates == run.fates + [fate] && after.checks == run.checks + 1
            && run.calls <= after.calls
            && |after.calls| == |run.calls| + Cost(w)(fate)
            && Tells(fate, intent, run.checks, after.calls, w)
            && after.trades
               == run.trades + (if fate.Traded? then [TradeFor(intent, fate.retries)] else [])
            && Successes(w, from, |after.calls|)
               == Successes(w, from, |run.calls|) + if fate.Traded? then 1 else 0
  {
    var n := |run.calls|;
    NoSuccess(w, from, n, n + Failures(w, n, Attempts(w)));
  }

  lemma HandleTells(intents: seq<Intent>, intent: Intent, start: Run, run: Run, w: World)
    requires Told(intents, start, run, w)
    ensures Told(intents + [intent], start, Handle(run, intent, w), w)
  {
    HandleAdds(intent, |start.calls|, run, w);
    var after := Handle(run, intent, w).calls;
    assert run.calls + after[|run.calls|..] == after;
    forall i | 0 <= i < |intents|
      ensures Tells(run.fates[i], intents[i], start.checks + i, after, w)
    {
      TellsLater(
        run.fates[i], intents[i], start.checks + i, run.calls, after[|run.calls|..], w);
    }
  }

  lemma HandleCounts(intents: seq<Intent>, intent: Intent, start: Run, run: Run, w: World)
    requires Counted(intents, start, run, w)
    ensures Counted(intents + [intent], start, Handle(run, intent, w), w)
  {
    HandleAdds(intent, |start.calls|, run, w);
    var fate := FateOf(run, w);
    SumIntAppend(Cost(w), run.fates, [fate]);
    CountByAppend(IsTraded, run.fates, [fate]);
    TradesAppend(intents, run.fates, intent, fate);
  }

  lemma HandlePlaces(intents: seq<Intent>, intent: Intent, start: Run, run: Run, w: World)
    requires Counted(intents, start, run, w) && Placed(start, run, w)
    ensures Placed(start, Handle(run, intent, w), w)
  {
    HandleAdds(intent, |start.calls|, run, w);
    var after := Handle(run, intent, w).fates;
    assert after[..|run.fates|] == run.fates;
    forall i | 0 <= i < |run.fates| ensures after[..i] == run.fates[..i] {
    }
  }

  ghost predicate Accounted(intents: seq<Intent>, start: Run, run: Run, w: World) {
    Told(intents, start, run, w) && Counted(intents, start, run, w) && Placed(start, run, w)
  }

  lemma HandleAccounts(intents: seq<Intent>, intent: Intent, start: Run, run: Run, after: Run, w: World)
    requires Accounted(intents, start, run, w) && after == Handle(run, intent, w)
    ensures Accounted(intents + [intent], start, after, w)
  {
    HandleTells(intents, intent, start, run, w);
    HandleCounts(intents, intent, start, run, w);
    HandlePlaces(intents, intent, start, run, w);
  }

  /**
   * Every intent is blocked, exhausted or traded, as its checks and submits say; the trades are the
   * traded intents in order, one for every submit that succeeded, and nothing else was submitted.
   */
  lemma {:induction false} ExecutionIsAccounted(intents: seq<Intent>, start: Run, w: World)
    requires start.trades == [] && start.fates == []
    ensures Accounted(intents, start, HandleAll(intents, start, w), w)
  {
    if intents != [] {
      var before, intent := intents[..|intents| - 1], intents[|intents| - 1];
      ExecutionIsAccounted(before, start, w);
      assert before + [intent] == intents;
      HandleAccounts(
        before, intent, start, HandleAll(before, start, w), HandleAll(intents, start, w), w);
    }
  }

  predicate IsBlocked(fate: Fate) { fate.Blocked? }

  predicate IsExhausted(fate: Fate) { fate.Exhausted? }

  /** End to end: candidates are diagnosed, blocked, exhausted or traded, and none is lost. */
  lemma CandidatesAreConserved(
    candidates: seq<Intent>, rounds: int, r: Round, s: Settings, start: Run, w: World)
    requires start.trades == [] && start.fates == []
    ensures var limited := Limit(candidates, rounds, r, s);
            var run := HandleAll(limited.accepted, start, w);
            && |candidates| == |limited.diagnostics| + CountBy(IsBlocked, run.fates)
                               + CountBy(IsExhausted, run.fates) + |run.trades|
            && |run.calls| - |start.calls| <= Attempts(w) * |limited.accepted|
  {
    var limited := Limit(candidates, rounds, r, s);
    LimitConserves(candidates, rounds, r, s);
    ExecutionIsAccounted(limited.accepted, start, w);
    var run := HandleAll(limited.accepted, start, w);
    FatesSplit(run.fates);
    CostIsBounded(limited.accepted, start, run, w, |run.fates|);
    assert run.fates[..|run.fates|] == run.fates;
  }

  lemma {:induction false} FatesSplit(fates: seq<Fate>)
    ensures |fates|
            == CountBy(IsBlocked, fates) + CountBy(IsExhausted, fates) + CountBy(IsTraded, fates)
  {
    if fates != [] {
      FatesSplit(fates[1..]);
    }
  }

  lemma {:induction false} CostIsBounded(
    intents: seq<Intent>, start: Run, run: Run, w: World, i: nat)
    requires Told(intents, start, run, w) && i <= |run.fates|
    ensures SumInt(Cost(w), run.fates[..i]) <= Attempts(w) * i
  {
    if i > 0 {
      CostIsBounded(intents, start, run, w, i - 1);
      assert run.fates[..i] == run.fates[..i - 1] + [run.fates[i - 1]];
      SumIntAppend(Cost(w), run.fates[..i - 1], [run.fates[i - 1]]);
      assert Tells(run.fates[i - 1], intents[i - 1], start.checks + (i - 1), run.calls, w);
      assert Attempts(w) * i == Attempts(w) * (i - 1) + Attempts(w);
    }
  }
}
