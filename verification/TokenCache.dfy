/**
 * The access-token cache that several servers share through one database table. Each server's calls
 * are interleaved step by step: reads, the named exclusive lock, the refresh, commits, failures.
 */
module TokenCache {
  import opened Common

  // ---- tokens and rows -------------------------------------------------------

  /** Instants are microseconds in UTC. */
  datatype Token = Token(value: string, kind: string, expiresAt: int)

  datatype RowKey = RowKey(environment: string, appKeyHash: string)

  /** A committed row: the token columns and when it was last used. */
  datatype Row = Row(token: Token, lastUsed: int)

  datatype LockName = LockName(environment: string, prefix: string)

  const SECOND := 1000000

  function LockOf(key: RowKey): LockName {
    LockName(key.environment,
      if |key.appKeyHash| <= 16 then key.appKeyHash else key.appKeyHash[..16])
  }

  /** The table keeps whole seconds. */
  function ToDbTime(t: int): int { t - t % SECOND }

  /** The token columns as an upsert stores them. */
  function StoredToken(t: Token): Token { Token(t.value, t.kind, ToDbTime(t.expiresAt)) }

  /** The token columns as a reader returns them: an empty type reads as the default. */
  function ReturnedToken(t: Token): Token {
    t.(kind := if t.kind == "" then "Bearer" else t.kind)
  }

  /** The committed token of `key` when it outlives `now` by more than `margin`. */
  function ReadValid(rows: map<RowKey, Row>, key: RowKey, now: int, margin: int): Option<Token> {
    if key !in rows || now + margin >= rows[key].token.expiresAt then None
    else Some(ReturnedToken(rows[key].token))
  }

  /** The committed row of `key` exists and is good for longer than `margin` after `now`. */
  predicate Outlives(rows: map<RowKey, Row>, key: RowKey, now: int, margin: int) {
    key in rows && now + margin < rows[key].token.expiresAt
  }

  /** `token` is what a reader makes of the stored columns. */
  predicate ReadsAs(token: Token, stored: Token) {
    && token.value == stored.value && token.expiresAt == stored.expiresAt
    && token.kind == if stored.kind == "" then "Bearer" else stored.kind
  }

  // ---- one server's call -----------------------------------------------------

  datatype Role = Reader | Waiter | Holder

  datatype Outcome = Returned(token: Token, refreshed: bool) | NoToken | LockRefused | Raised

  datatype Pc =
    | Reading                            // read_valid, before its query
    | Acquiring                          // before the lock request
    | Waiting                            // the lock timed out; will look once more
    | Locked                             // the lock is held; will look again
    | Refreshing                         // nothing valid was found under the lock
    | Saving(minted: Token)               // refreshed, before the upsert
    | SaveCommit(saved: Token)           // upserted, before the commit
    | Touching(role: Role, token: Token) // found valid, before the last-used update
    | TouchCommit(role: Role, token: Token)
    | Releasing(outcome: Outcome)        // the finally block
    | Closing(outcome: Outcome)          // the release failed; the session still has to close
    | Done(outcome: Outcome)
  {
    predicate HoldsLock() {
      Locked? || Refreshing? || Saving? || SaveCommit? || Releasing? || Closing?
      || ((Touching? || TouchCommit?) && role.Holder?)
    }

    /** Between the second look and the commit of the new token. */
    predicate Renewing() { Refreshing? || Saving? || SaveCommit? }
  }

  datatype Session = Session(key: RowKey, now: int, margin: int, pc: Pc)

  datatype Action =
    | StartRead(key: RowKey, now: int, margin: int)
    | StartRefresh(key: RowKey, now: int, margin: int)
    | Grant | Timeout
    | Look
    | Refresh(token: Token)
    | Upsert | Touch
    | Commit(at: int)
    | LoseCommit(at: int, applied: bool) // the commit raises, whether or not it took effect
    | Fail                               // any other call raises
    | Release | ReleaseFails | Close
    | Crash

  datatype Event = Event(server: int, action: Action)

  /** `issued` collects every token that some refresh returned. */
  datatype State = State(
    rows: map<RowKey, Row>, locks: map<LockName, int>, sessions: map<int, Session>,
    issued: set<Token>)

  const START := State(map[], map[], map[], {})

  predicate Enabled(s: State, e: Event) {
    var i := e.server;
    if e.action.StartRead? || e.action.StartRefresh? then
      i !in s.sessions || s.sessions[i].pc.Done?
    else if i !in s.sessions then false
    else
      var pc := s.sessions[i].pc;
      match e.action
      case Grant => pc.Acquiring? && LockOf(s.sessions[i].key) !in s.locks
      case Timeout => pc.Acquiring?
      case Look => pc.Reading? || pc.Waiting? || pc.Locked?
      case Refresh(_) => pc.Refreshing?
      case Upsert => pc.Saving?
      case Touch => pc.Touching?
      case Commit(_) => pc.SaveCommit? || pc.TouchCommit?
      case LoseCommit(_, _) => pc.SaveCommit? || pc.TouchCommit?
      case Fail => !pc.Done? && !pc.Releasing? && !pc.Closing?
      case Release => pc.Releasing?
      case ReleaseFails => pc.Releasing?
      case Close => pc.Closing?
      case Crash => !pc.Done?
      case _ => false
  }

  /** Frees the lock if this server has it: explicitly, or because its session ended. */
  function Unlock(s: State, i: int): State
    requires i in s.sessions
  {
    var name := LockOf(s.sessions[i].key);
    if s.sessions[i].pc.HoldsLock() then s.(locks := s.locks - {name}) else s
  }

  /** What a pending transaction writes when it commits. */
  function Committed(s: State, i: int, at: int): map<RowKey, Row>
    requires i in s.sessions
  {
    var key := s.sessions[i].key;
    match s.sessions[i].pc
    case SaveCommit(token) => s.rows[key := Row(StoredToken(token), at)]
    case TouchCommit(_, _) => if key in s.rows then s.rows[key := s.rows[key].(lastUsed := at)] else s.rows
    case _ => s.rows
  }

  function AfterCommit(s: State, i: int): Pc
    requires i in s.sessions
  {
    match s.sessions[i].pc
    case SaveCommit(token) => Releasing(Returned(token, true))
    case TouchCommit(role, token) =>
      if role.Holder? then Releasing(Returned(token, false)) else Done(Returned(token, false))
    case pc => pc
  }

  function AfterLook(s: State, i: int): Pc
    requires i in s.sessions
  {
    var c := s.sessions[i];
    var found := ReadValid(s.rows, c.key, c.now, c.margin);
    var role := if c.pc.Locked? then Holder else if c.pc.Waiting? then Waiter else Reader;
    if found.Some? then Touching(role, found.value)
    else if c.pc.Locked? then Refreshing
    else if c.pc.Waiting? then Done(LockRefused)
    else Done(NoToken)
  }

  /** An exception leaves through the finally block when the lock is held. */
  function AfterFailure(pc: Pc): Pc {
    if pc.HoldsLock() then Releasing(Raised) else Done(Raised)
  }

  /** Where the server's own step takes its call. */
  function NextSession(s: State, e: Event): Session
    requires Enabled(s, e)
  {
    var i := e.server;
    match e.action
    case StartRead(key, now, margin) => Session(key, now, margin, Reading)
    case StartRefresh(key, now, margin) => Session(key, now, margin, Acquiring)
    case _ => s.sessions[i].(pc := NextPc(s, i, e.action))
  }

  function NextPc(s: State, i: int, action: Action): Pc
    requires i in s.sessions && Enabled(s, Event(i, action))
    requires !action.StartRead? && !action.StartRefresh?
  {
    var pc := s.sessions[i].pc;
    match action
    case Grant => Locked
    case Timeout => Waiting
    case Look => AfterLook(s, i)
    case Refresh(token) => Saving(token)
    case Upsert => SaveCommit(pc.minted)
    case Touch => TouchCommit(pc.role, pc.token)
    case Commit(_) => AfterCommit(s, i)
    case LoseCommit(_, _) => AfterFailure(pc)
    case Fail => AfterFailure(pc)
    case Release => Done(pc.outcome)
    case ReleaseFails => Closing(Raised)
    case Close => Done(pc.outcome)
    case Crash => Done(Raised)
  }

  function Do(s: State, e: Event): State
    requires Enabled(s, e)
  {
    var i := e.server;
    var shared :=
      match e.action
      case Grant => s.(locks := s.locks[LockOf(s.sessions[i].key) := i])
      case Refresh(token) => s.(issued := s.issued + {token})
      case Commit(at) => s.(rows := Committed(s, i, at))
      case LoseCommit(at, applied) => if applied then s.(rows := Committed(s, i, at)) else s
      case Release => Unlock(s, i)
      case Close => Unlock(s, i)
      case Crash => Unlock(s, i)
      case _ => s;
    shared.(sessions := s.sessions[i := NextSession(s, e)])
  }

  predicate Legal(s: State, events: seq<Event>)
    decreases |events|
  {
    events == [] || (Enabled(s, events[0]) && Legal(Do(s, events[0]), events[1..]))
  }

  function After(s: State, events: seq<Event>): State
    requires Legal(s, events)
    decreases |events|
  {
    if events == [] then s else After(Do(s, events[0]), events[1..])
  }

  // ---- invariant -------------------------------------------------------------

  /** The lock table and the sessions agree on who holds what. */
  ghost predicate LocksMatch(s: State) {
    && (forall i :: i in s.sessions && s.sessions[i].pc.HoldsLock() ==>
          LockOf(s.sessions[i].key) in s.locks && s.locks[LockOf(s.sessions[i].key)] == i)
    && (forall name :: name in s.locks ==>
          && s.locks[name] in s.sessions && s.sessions[s.locks[name]].pc.HoldsLock()
          && LockOf(s.sessions[s.locks[name]].key) == name)
  }

  /** Whoever is renewing still sees no valid committed token. */
  ghost predicate RenewalsNeeded(s: State) {
    forall i :: i in s.sessions && s.sessions[i].pc.Renewing() ==>
      ReadValid(s.rows, s.sessions[i].key, s.sessions[i].now, s.sessions[i].margin).None?
  }

  /** The stored columns come from an issued token and never promise a later expiry than it has. */
  ghost predicate Backed(stored: Token, issued: set<Token>) {
    exists t :: t in issued && stored == StoredToken(t) && stored.expiresAt <= t.expiresAt
  }

  /** A token read from the table: backed, and valid by the caller's margin. */
  ghost predicate GoodRead(token: Token, c: Session, issued: set<Token>) {
    && c.now + c.margin < token.expiresAt
    && exists t :: t in issued && token == ReturnedToken(StoredToken(t)) && token.expiresAt <= t.expiresAt
  }

  ghost predicate GoodOutcome(o: Outcome, c: Session, issued: set<Token>) {
    o.Returned? ==> if o.refreshed then o.token in issued else GoodRead(o.token, c, issued)
  }

  ghost predicate GoodSession(c: Session, issued: set<Token>) {
    match c.pc
    case Saving(t) => t in issued
    case SaveCommit(t) => t in issued
    case Touching(_, t) => GoodRead(t, c, issued)
    case TouchCommit(_, t) => GoodRead(t, c, issued)
    case Releasing(o) => GoodOutcome(o, c, issued)
    case Closing(o) => GoodOutcome(o, c, issued)
    case Done(o) => GoodOutcome(o, c, issued)
    case _ => true
  }

  ghost predicate TokensGood(s: State) {
    && (forall k :: k in s.rows ==> Backed(s.rows[k].token, s.issued))
    && (forall i :: i in s.sessions ==> GoodSession(s.sessions[i], s.issued))
  }

  ghost predicate Inv(s: State) { LocksMatch(s) && RenewalsNeeded(s) && TokensGood(s) }

  lemma SessionStaysGood(c: Session, issued: set<Token>, more: set<Token>)
    requires GoodSession(c, issued) && issued <= more
    ensures GoodSession(c, more)
  {
  }

  /** Only a grant, or an end of the lock's holder, changes the lock table. */
  lemma LockStep(s: State, e: Event, name: LockName)
    requires Inv(s) && Enabled(s, e)
    ensures var s', i := Do(s, e), e.server;
            && (name in s'.locks <==>
                  (name in s.locks && !(s.locks[name] == i && !s'.sessions[i].pc.HoldsLock()))
                  || (e.action.Grant? && name == LockOf(s.sessions[i].key)))
            && (name in s'.locks ==>
                  s'.locks[name] == if name in s.locks then s.locks[name] else i)
  {
  }

  lemma HoldersKept(s: State, e: Event, j: int)
    requires Inv(s) && Enabled(s, e)
    requires j in Do(s, e).sessions && Do(s, e).sessions[j].pc.HoldsLock()
    ensures var s', name := Do(s, e), LockOf(Do(s, e).sessions[j].key);
            name in s'.locks && s'.locks[name] == j
  {
    LockStep(s, e, LockOf(Do(s, e).sessions[j].key));
  }

  lemma LocksKept(s: State, e: Event)
    requires Inv(s) && Enabled(s, e)
    ensures LocksMatch(Do(s, e))
  {
    var s' := Do(s, e);
    forall j | j in s'.sessions && s'.sessions[j].pc.HoldsLock()
      ensures LockOf(s'.sessions[j].key) in s'.locks && s'.locks[LockOf(s'.sessions[j].key)] == j
    {
      HoldersKept(s, e, j);
    }
    forall name | name in s'.locks
      ensures s'.locks[name] in s'.sessions && s'.sessions[s'.locks[name]].pc.HoldsLock()
      ensures LockOf(s'.sessions[s'.locks[name]].key) == name
    {
      LockStep(s, e, name);
    }
  }

  /** A commit that writes token columns comes from the lock holder, who is renewing. */
  lemma CommitColumns(s: State, i: int, at: int, k: RowKey)
    requires Inv(s) && i in s.sessions
    ensures var rows := Committed(s, i, at);
            ((s.sessions[i].pc.SaveCommit? && k == s.sessions[i].key)
                || ((k in rows <==> k in s.rows) && (k in rows ==> rows[k].token == s.rows[k].token)))
  {
  }

  lemma RenewalsKept(s: State, e: Event)
    requires Inv(s) && Enabled(s, e)
    ensures RenewalsNeeded(Do(s, e))
  {
    var s', i := Do(s, e), e.server;
    forall j | j in s'.sessions && s'.sessions[j].pc.Renewing()
      ensures ReadValid(s'.rows, s'.sessions[j].key, s'.sessions[j].now, s'.sessions[j].margin).None?
    {
      if j != i {
        assert s'.sessions[j] == s.sessions[j];
        var at := if e.action.Commit? || e.action.LoseCommit? then e.action.at else 0;
        if i in s.sessions {
          CommitColumns(s, i, at, s.sessions[j].key);
        }
      }
    }
  }

  lemma RowsStayBacked(s: State, e: Event, k: RowKey)
    requires Inv(s) && Enabled(s, e) && k in Do(s, e).rows
    ensures Backed(Do(s, e).rows[k].token, Do(s, e).issued)
  {
    var s', i := Do(s, e), e.server;
    if k in s.rows && s'.rows[k].token == s.rows[k].token {
      var t :| t in s.issued && s.rows[k].token == StoredToken(t)
               && s.rows[k].token.expiresAt <= t.expiresAt;
      assert t in s'.issued;
    } else {
      var t := s.sessions[i].pc.saved;
      assert t in s'.issued && s'.rows[k].token == StoredToken(t);
    }
  }

  /** A step moves only its own session. */
  lemma OthersStay(s: State, e: Event, j: int)
    requires Enabled(s, e) && j in Do(s, e).sessions && j != e.server
    ensures j in s.sessions && Do(s, e).sessions[j] == s.sessions[j]
    ensures s.issued <= Do(s, e).issued
  {
  }

  lemma OwnSessionGood(s: State, e: Event)
    requires Inv(s) && Enabled(s, e)
    ensures e.server in Do(s, e).sessions
    ensures GoodSession(Do(s, e).sessions[e.server], Do(s, e).issued)
  {
    var i := e.server;
    if e.action.Look? {
      LookIsGood(s, i);
    } else if i in s.sessions {
      assert GoodSession(s.sessions[i], s.issued);
    }
  }

  lemma TokensKept(s: State, e: Event)
    requires Inv(s) && Enabled(s, e)
    ensures TokensGood(Do(s, e))
  {
    forall k | k in Do(s, e).rows ensures Backed(Do(s, e).rows[k].token, Do(s, e).issued) {
      RowsStayBacked(s, e, k);
    }
    forall j | j in Do(s, e).sessions ensures GoodSession(Do(s, e).sessions[j], Do(s, e).issued) {
      if j == e.server {
        OwnSessionGood(s, e);
      } else {
        OthersStay(s, e, j);
        SessionStaysGood(s.sessions[j], s.issued, Do(s, e).issued);
      }
    }
  }

  lemma LookIsGood(s: State, i: int)
    requires Inv(s) && i in s.sessions
    ensures GoodSession(s.sessions[i].(pc := AfterLook(s, i)), s.issued)
  {
    var c := s.sessions[i];
    if ReadValid(s.rows, c.key, c.now, c.margin).Some? {
      assert Backed(s.rows[c.key].token, s.issued);
    }
  }

  lemma StepKeepsInv(s: State, e: Event)
    requires Inv(s) && Enabled(s, e)
    ensures Inv(Do(s, e))
  {
    LocksKept(s, e);
    RenewalsKept(s, e);
    TokensKept(s, e);
  }

  lemma {:induction false} RunKeepsInv(s: State, events: seq<Event>)
    requires Inv(s) && Legal(s, events)
    ensures Inv(After(s, events))
    decreases |events|
  {
    if events != [] {
      StepKeepsInv(s, events[0]);
      RunKeepsInv(Do(s, events[0]), events[1..]);
    }
  }

  // ---- main results: every interleaving of any number of servers ---------------

  /** At most one server at a time is between acquiring and releasing the lock of a row. */
  lemma OneHolderPerRow(events: seq<Event>, i: int, j: int)
    requires Legal(START, events)
    requires var s := After(START, events);
             && i in s.sessions && j in s.sessions && s.sessions[i].key == s.sessions[j].key
             && s.sessions[i].pc.HoldsLock() && s.sessions[j].pc.HoldsLock()
    ensures i == j
  {
    RunKeepsInv(START, events);
  }

  function TokenColumns(rows: map<RowKey, Row>, k: RowKey): Option<Token> {
    if k in rows then Some(rows[k].token) else None
  }

  /**
   * A step changes a row's token columns only as the holder of that row's lock commits a token just
   * refreshed for it, and the columns it replaces had run out for that caller.
   */
  lemma TokensChangeOnlyUnderLock(events: seq<Event>, e: Event, k: RowKey)
    requires Legal(START, events) && Enabled(After(START, events), e)
    ensures var s := After(START, events);
            TokenColumns(Do(s, e).rows, k) != TokenColumns(s.rows, k) ==>
              && e.server in s.sessions && s.sessions[e.server].key == k
              && LockOf(k) in s.locks && s.locks[LockOf(k)] == e.server
              && s.sessions[e.server].pc.SaveCommit?
              && s.sessions[e.server].pc.saved in s.issued
              && TokenColumns(Do(s, e).rows, k) == Some(StoredToken(s.sessions[e.server].pc.saved))
              && !Outlives(s.rows, k, s.sessions[e.server].now, s.sessions[e.server].margin)
  {
    RunKeepsInv(START, events);
    var s := After(START, events);
    var at := if e.action.Commit? || e.action.LoseCommit? then e.action.at else 0;
    if e.server in s.sessions {
      CommitColumns(s, e.server, at, k);
    }
  }

  /** `refresh()` runs only while the committed row is missing or expired by the caller's margin. */
  lemma RefreshOnlyWhenExpired(events: seq<Event>, e: Event)
    requires Legal(START, events) && Enabled(After(START, events), e) && e.action.Refresh?
    ensures var s := After(START, events);
            var c := s.sessions[e.server];
            && (c.key in s.rows ==> c.now + c.margin >= s.rows[c.key].token.expiresAt)
            && LockOf(c.key) in s.locks && s.locks[LockOf(c.key)] == e.server
  {
    RunKeepsInv(START, events);
  }

  /** A finished call holds no lock, however it ended, and every held lock has a running holder. */
  lemma FinishedCallsHoldNothing(events: seq<Event>, i: int)
    requires Legal(START, events)
    requires i in After(START, events).sessions && After(START, events).sessions[i].pc.Done?
    ensures forall name :: name in After(START, events).locks ==> After(START, events).locks[name] != i
  {
    RunKeepsInv(START, events);
  }

  /** What the holder can always do next: fail, and run its finally block. */
  function ExitOf(pc: Pc, i: int): seq<Event>
    requires pc.HoldsLock()
  {
    if pc.Closing? then [Event(i, Close)]
    else if pc.Releasing? then [Event(i, Release)]
    else [Event(i, Fail), Event(i, Release)]
  }

  lemma ExitFrees(s: State, i: int)
    requires Inv(s) && i in s.sessions && s.sessions[i].pc.HoldsLock()
    ensures var exit := ExitOf(s.sessions[i].pc, i);
            && Legal(s, exit) && i in After(s, exit).sessions
            && After(s, exit).sessions[i].pc.Done?
            && LockOf(s.sessions[i].key) !in After(s, exit).locks
  {
    var pc := s.sessions[i].pc;
    if pc.Closing? {
      RunOne(s, Event(i, Close));
    } else if pc.Releasing? {
      RunOne(s, Event(i, Release));
    } else {
      var next := Do(s, Event(i, Fail));
      assert next.sessions[i] == s.sessions[i].(pc := Releasing(Raised));
      RunTwo(s, Event(i, Fail), Event(i, Release));
    }
  }

  lemma RunOne(s: State, e: Event)
    requires Enabled(s, e)
    ensures Legal(s, [e]) && After(s, [e]) == Do(s, e)
  {
    assert [e][1..] == [];
    assert Legal(Do(s, e), []) && After(Do(s, e), []) == Do(s, e);
  }

  lemma RunTwo(s: State, e: Event, f: Event)
    requires Enabled(s, e) && Enabled(Do(s, e), f)
    ensures Legal(s, [e, f]) && After(s, [e, f]) == Do(Do(s, e), f)
  {
    RunOne(Do(s, e), f);
    assert [e, f][1..] == [f];
  }

  /** The holder of a lock can always give it back by itself, within two steps. */
  lemma HolderCanAlwaysRelease(events: seq<Event>, i: int)
    requires Legal(START, events)
    requires i in After(START, events).sessions && After(START, events).sessions[i].pc.HoldsLock()
    ensures var s := After(START, events);
            var exit := ExitOf(s.sessions[i].pc, i);
            && |exit| <= 2 && (forall e :: e in exit ==> e.server == i) && Legal(s, exit)
            && i in After(s, exit).sessions && After(s, exit).sessions[i].pc.Done?
            && LockOf(s.sessions[i].key) !in After(s, exit).locks
  {
    RunKeepsInv(START, events);
    ExitFrees(After(START, events), i);
  }

  // ---- whose token a refreshed token is -------------------------------------------

  predicate Starts(e: Event, i: int) {
    e.server == i && (e.action.StartRead? || e.action.StartRefresh?)
  }

  /** Server `i` refreshed this token in the call it is in after the run. */
  ghost predicate RefreshedInCall(events: seq<Event>, i: int, t: Token) {
    exists k :: 0 <= k < |events| && events[k] == Event(i, Refresh(t))
                && forall j :: k < j < |events| ==> !Starts(events[j], i)
  }

  /** The token of the call's own refresh that a session carries. */
  function OwnToken(pc: Pc): Option<Token> {
    match pc
    case Saving(t) => Some(t)
    case SaveCommit(t) => Some(t)
    case Releasing(Returned(t, true)) => Some(t)
    case Closing(Returned(t, true)) => Some(t)
    case Done(Returned(t, true)) => Some(t)
    case _ => None
  }

  function OwnTokenOf(s: State, i: int): Option<Token> {
    if i in s.sessions then OwnToken(s.sessions[i].pc) else None
  }

  /** A step makes a token the call's own only by refreshing it. */
  lemma OwnTokenStep(s: State, e: Event, i: int, t: Token)
    requires Enabled(s, e) && OwnTokenOf(Do(s, e), i) == Some(t)
    ensures e == Event(i, Refresh(t)) || (OwnTokenOf(s, i) == Some(t) && !Starts(e, i))
  {
  }

  lemma {:induction false} OwnTokenIsRefreshed(s: State, events: seq<Event>, i: int, t: Token)
    requires Legal(s, events) && OwnTokenOf(After(s, events), i) == Some(t)
    ensures RefreshedInCall(events, i, t)
            || (OwnTokenOf(s, i) == Some(t) && forall e :: e in events ==> !Starts(e, i))
    decreases |events|
  {
    if events != [] {
      var next, rest := Do(s, events[0]), events[1..];
      OwnTokenIsRefreshed(next, rest, i, t);
      if RefreshedInCall(rest, i, t) {
        var k :| 0 <= k < |rest| && rest[k] == Event(i, Refresh(t))
                 && forall j :: k < j < |rest| ==> !Starts(rest[j], i);
        assert events[k + 1] == Event(i, Refresh(t));
        assert forall j :: k + 1 < j < |events| ==> events[j] == rest[j - 1];
      } else {
        OwnTokenStep(s, events[0], i, t);
        assert forall j :: 0 < j < |events| ==> events[j] == rest[j - 1] && rest[j - 1] in rest;
        assert forall e :: e in events <==> e == events[0] || e in rest;
      }
    }
  }

  /**
   * Every token a call returns was issued by a refresh. It is either what the caller itself
   * refreshed in this call, or a row that outlived the caller's margin when read and whose stored
   * expiry is not later than the true one, so the true token outlives the margin too.
   */
  lemma ReturnedTokensAreGood(events: seq<Event>, i: int)
    requires Legal(START, events) && i in After(START, events).sessions
    requires var pc := After(START, events).sessions[i].pc; pc.Done? && pc.outcome.Returned?
    ensures var s := After(START, events);
            var c := s.sessions[i];
            var token := c.pc.outcome.token;
            if c.pc.outcome.refreshed then token in s.issued && RefreshedInCall(events, i, token)
            else
              && c.now + c.margin < token.expiresAt
              && exists t :: t in s.issued && t.value == token.value && token.expiresAt <= t.expiresAt
                             && t.expiresAt - SECOND < token.expiresAt && c.now + c.margin < t.expiresAt
  {
    RunKeepsInv(START, events);
    var outcome := After(START, events).sessions[i].pc.outcome;
    if outcome.refreshed {
      OwnTokenIsRefreshed(START, events, i, outcome.token);
    }
  }

  // ---- what a step writes ------------------------------------------------------

  /** The columns of a fresh token: its value and kind, and its expiry in whole seconds, never later. */
  predicate StoredAs(stored: Token, token: Token) {
    && stored.value == token.value && stored.kind == token.kind && stored.expiresAt % SECOND == 0
    && stored.expiresAt <= token.expiresAt < stored.expiresAt + SECOND
  }

  /** The step takes effect as the commit of a pending transaction. */
  predicate Commits(e: Event) {
    e.action.Commit? || (e.action.LoseCommit? && e.action.applied)
  }

  /**
   * Rows change by commits alone. The commit of a fresh token writes its columns into the row of its
   * key, and that of a found one the time of use of a row that is still there.
   */
  lemma RowsStated(s: State, e: Event)
    requires Enabled(s, e)
    ensures var rows, rows' := s.rows, Do(s, e).rows;
            if !Commits(e) then rows' == rows
            else
              var key, pc, at := s.sessions[e.server].key, s.sessions[e.server].pc, e.action.at;
              && (forall k :: k != key ==> (k in rows' <==> k in rows) && (k in rows ==> rows'[k] == rows[k]))
              && (pc.SaveCommit? ==>
                    key in rows' && StoredAs(rows'[key].token, pc.saved) && rows'[key].lastUsed == at)
              && (pc.TouchCommit? ==>
                    (key in rows' <==> key in rows)
                    && (key in rows ==> rows'[key] == Row(rows[key].token, at)))
  {
  }

  /** Keys share a lock exactly when environment and the first sixteen characters of the hash agree. */
  lemma LocksStated(a: RowKey, b: RowKey)
    requires |a.appKeyHash| >= 16 && |b.appKeyHash| >= 16
    ensures LockOf(a) == LockOf(b)
       <==> a.environment == b.environment
            && forall i :: 0 <= i < 16 ==> a.appKeyHash[i] == b.appKeyHash[i]
  {
    var p, q := LockOf(a).prefix, LockOf(b).prefix;
    assert p == a.appKeyHash[..16] && q == b.appKeyHash[..16];
    if LockOf(a) == LockOf(b) {
      forall i | 0 <= i < 16 ensures a.appKeyHash[i] == b.appKeyHash[i] {
        assert p[i] == q[i];
      }
    }
  }

  // ---- what a look finds -------------------------------------------------------

  /** A look goes on with a token exactly when the committed row outlives the caller's margin. */
  lemma LookStated(s: State, i: int)
    requires Enabled(s, Event(i, Look))
    ensures var s', c := Do(s, Event(i, Look)), s.sessions[i];
            var pc := s'.sessions[i].pc;
            && s' == s.(sessions := s.sessions[i := c.(pc := pc)])
            && (Outlives(s.rows, c.key, c.now, c.margin) ==>
                  pc.Touching? && ReadsAs(pc.token, s.rows[c.key].token)
                  && (pc.role.Holder? <==> c.pc.Locked?))
            && (!Outlives(s.rows, c.key, c.now, c.margin) ==>
                  pc == match c.pc
                        case Locked => Refreshing
                        case Waiting => Done(LockRefused)
                        case _ => Done(NoToken))
  {
  }

  /** What the call of a server has seen: a stored token, or that there is none to be had. */
  function Answer(pc: Pc): Option<Option<Token>> {
    match pc
    case Refreshing => Some(None)
    case Saving(_) => Some(None)
    case SaveCommit(_) => Some(None)
    case Touching(_, token) => Some(Some(token))
    case TouchCommit(_, token) => Some(Some(token))
    case Releasing(o) => AnswerOf(o)
    case Closing(o) => AnswerOf(o)
    case Done(o) => AnswerOf(o)
    case _ => None
  }

  function AnswerOf(o: Outcome): Option<Option<Token>> {
    match o
    case Returned(token, refreshed) => Some(if refreshed then None else Some(token))
    case NoToken => Some(None)
    case LockRefused => Some(None)
    case Raised => None
  }

  predicate SameCall(c: Session, d: Session) { c == d.(pc := c.pc) }

  /** The committed row of the call `c` gives the answer `found`. */
  predicate RowGives(rows: map<RowKey, Row>, c: Session, found: Option<Token>) {
    match found
    case None => !Outlives(rows, c.key, c.now, c.margin)
    case Some(token) => Outlives(rows, c.key, c.now, c.margin) && ReadsAs(token, rows[c.key].token)
  }

  /** At some step of the run, not before its call `c` began, server `i` looked and saw `found`. */
  ghost predicate Looked(s: State, events: seq<Event>, i: int, c: Session, found: Option<Token>)
    requires Legal(s, events)
    decreases |events|
  {
    events != [] &&
    ( (events[0] == Event(i, Look) && SameCall(s.sessions[i], c) && RowGives(s.rows, c, found)
       && forall e :: e in events[1..] ==> !Starts(e, i))
      || Looked(Do(s, events[0]), events[1..], i, c, found))
  }

  lemma AnswerStep(s: State, e: Event, i: int)
    requires Enabled(s, e) && i in Do(s, e).sessions && Answer(Do(s, e).sessions[i].pc).Some?
    ensures var c := Do(s, e).sessions[i];
            || (e == Event(i, Look) && SameCall(s.sessions[i], c)
                && RowGives(s.rows, c, Answer(c.pc).value))
            || (!Starts(e, i) && i in s.sessions && SameCall(s.sessions[i], c)
                && Answer(s.sessions[i].pc) == Answer(c.pc))
  {
    if e == Event(i, Look) {
      LookStated(s, i);
    }
  }

  /** What a call carries as its answer comes from one of its own looks. */
  lemma {:induction false} AnswersComeFromLooks(s: State, events: seq<Event>, i: int)
    requires Legal(s, events)
    requires i in After(s, events).sessions && Answer(After(s, events).sessions[i].pc).Some?
    ensures var c := After(s, events).sessions[i];
            || Looked(s, events, i, c, Answer(c.pc).value)
            || (i in s.sessions && SameCall(s.sessions[i], c)
                && Answer(s.sessions[i].pc) == Answer(c.pc)
                && forall e :: e in events ==> !Starts(e, i))
    decreases |events|
  {
    if events != [] {
      var next, rest := Do(s, events[0]), events[1..];
      AnswersComeFromLooks(next, rest, i);
      var c := After(s, events).sessions[i];
      if !Looked(next, rest, i, c, Answer(c.pc).value) {
        AnswerStep(s, events[0], i);
        assert forall e :: e in events <==> e == events[0] || e in rest;
      }
    }
  }

  /**
   * Over every run, a call ends without a token, is refused or returns a refreshed token only after
   * one of its own looks found the committed row missing or about to expire, and returns a stored
   * token only as it was read from a row that outlived the margin.
   */
  lemma OutcomesComeFromLooks(events: seq<Event>, i: int)
    requires Legal(START, events)
    requires i in After(START, events).sessions && After(START, events).sessions[i].pc.Done?
    ensures var c := After(START, events).sessions[i];
            match c.pc.outcome
            case Returned(token, refreshed) =>
              Looked(START, events, i, c, if refreshed then None else Some(token))
            case Raised => true
            case _ => Looked(START, events, i, c, None)
  {
    if !After(START, events).sessions[i].pc.outcome.Raised? {
      AnswersComeFromLooks(START, events, i);
    }
  }

  /** `issued` is exactly what the refreshes of the run returned. */
  lemma {:induction false} IssuedIsHistory(s: State, events: seq<Event>, t: Token)
    requires Legal(s, events)
    ensures t in After(s, events).issued
       <==> t in s.issued || exists e :: e in events && e.action == Refresh(t)
    decreases |events|
  {
    if events != [] {
      IssuedIsHistory(Do(s, events[0]), events[1..], t);
      assert forall e :: e in events <==> e == events[0] || e in events[1..];
    }
  }
}
