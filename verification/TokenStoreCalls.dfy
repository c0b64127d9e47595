/** The two calls of the token store as code, each step open to interference by other servers. */
module TokenStoreCalls {
  import opened Common
  import opened TokenCache

  /** What the outside world decides during one call; `None` means the refresh raises. */
  datatype Choices = Choices(
    acquireFails: bool, granted: bool, lookFails: bool, touchFails: bool, minted: Option<Token>,
    saveFails: bool, at: int, commitLost: bool, applied: bool, releaseFails: bool)

  /** Events of other servers that happen between two steps; those not possible are skipped. */
  function Interfered(s: State, i: int, others: seq<Event>): State
    decreases |others|
  {
    if others == [] then s
    else if others[0].server != i && Enabled(s, others[0]) then
      Interfered(Do(s, others[0]), i, others[1..])
    else Interfered(s, i, others[1..])
  }

  /** The state the look of a reading call finds: the call has begun, and the others have moved. */
  function SeenByRead(s: State, i: int, key: RowKey, now: int, margin: int, others: Pc -> seq<Event>)
    : (seen: State)
    requires Enabled(s, Event(i, StartRead(key, now, margin)))
    ensures others(Reading) == [] ==> seen.rows == s.rows
  {
    Interfered(Do(s, Event(i, StartRead(key, now, margin))), i, others(Reading))
  }

  /** The state in which a refreshing call asks for the lock. */
  function AtRequest(s: State, i: int, key: RowKey, now: int, margin: int, others: Pc -> seq<Event>)
    : (asked: State)
    requires Enabled(s, Event(i, StartRefresh(key, now, margin)))
    ensures others(Acquiring) == [] ==> asked.rows == s.rows && asked.locks == s.locks
  {
    Interfered(Do(s, Event(i, StartRefresh(key, now, margin))), i, others(Acquiring))
  }

  predicate LockGranted(s: State, i: int, choices: Choices)
    requires i in s.sessions
  {
    choices.granted && LockOf(s.sessions[i].key) !in s.locks
  }

  /** The state the look after the lock request finds. */
  function SeenAfterRequest(s: State, i: int, choices: Choices, others: Pc -> seq<Event>)
    : (seen: State)
    requires i in s.sessions && s.sessions[i].pc.Acquiring?
    ensures others(Locked) == [] && others(Waiting) == [] ==> seen.rows == s.rows
  {
    if LockGranted(s, i, choices) then Interfered(Do(s, Event(i, Grant)), i, others(Locked))
    else Interfered(Do(s, Event(i, Timeout)), i, others(Waiting))
  }

  lemma {:induction false} InterferenceKeepsSession(s: State, i: int, others: seq<Event>)
    requires Inv(s) && i in s.sessions
    ensures var s' := Interfered(s, i, others);
            && Inv(s') && i in s'.sessions && s'.sessions[i] == s.sessions[i]
            && s.issued <= s'.issued
    decreases |others|
  {
    if others != [] {
      if others[0].server != i && Enabled(s, others[0]) {
        StepKeepsInv(s, others[0]);
        StepKeepsOthers(s, others[0], i);
        InterferenceKeepsSession(Do(s, others[0]), i, others[1..]);
      } else {
        InterferenceKeepsSession(s, i, others[1..]);
      }
    }
  }

  lemma StepKeepsOthers(s: State, e: Event, i: int)
    requires Enabled(s, e) && i in s.sessions && e.server != i
    ensures i in Do(s, e).sessions && Do(s, e).sessions[i] == s.sessions[i]
    ensures s.issued <= Do(s, e).issued
  {
  }

  /** How a call without the lock ends, by what it finds in `rows` and by what raises. */
  predicate LookedUp(outcome: Outcome, rows: map<RowKey, Row>, c: Session, choices: Choices) {
    var valid := Outlives(rows, c.key, c.now, c.margin);
    && (outcome.Raised? <==>
          choices.lookFails || (valid && (choices.touchFails || choices.commitLost)))
    && (outcome.Returned? <==> !outcome.Raised? && valid)
    && (outcome.Returned? ==> !outcome.refreshed && ReadsAs(outcome.token, rows[c.key].token))
  }

  /** How a call with the lock ends, before its finally block. */
  predicate Renewed(outcome: Outcome, rows: map<RowKey, Row>, c: Session, choices: Choices) {
    var valid := Outlives(rows, c.key, c.now, c.margin);
    && (outcome.Raised? <==>
          || choices.lookFails || choices.commitLost
          || (if valid then choices.touchFails else choices.minted.None? || choices.saveFails))
    && (outcome.Returned? <==> !outcome.Raised?)
    && (outcome.Returned? ==>
          && outcome.refreshed == !valid
          && if valid then ReadsAs(outcome.token, rows[c.key].token)
             else Some(outcome.token) == choices.minted)
  }

  /** How a call ends that asks for the lock in `s`: by the grant, the row then found, what raises. */
  predicate Answered(
    outcome: Outcome, s: State, i: int, c: Session, choices: Choices, others: Pc -> seq<Event>)
    requires i in s.sessions && s.sessions[i].pc.Acquiring?
  {
    var rows := SeenAfterRequest(s, i, choices, others).rows;
    if choices.acquireFails then outcome.Raised?
    else if !LockGranted(s, i, choices) then LookedUp(outcome, rows, c, choices)
    else if choices.releaseFails then outcome.Raised?
    else Renewed(outcome, rows, c, choices)
  }

  /**
   * The shared database, seen from one server that runs one call at a time. `others` gives what the
   * other servers do after each of its steps; a call is never twice at the same point.
   */
  class Store {
    var state: State
    const server: int

    constructor (server: int, state: State)
      requires Inv(state)
      ensures this.server == server && this.state == state
    {
      this.server, this.state := server, state;
    }

    predicate Ready()
      reads this
    {
      server !in state.sessions || state.sessions[server].pc.Done?
    }

    predicate At(c: Session)
      reads this
    {
      server in state.sessions && state.sessions[server] == c
    }

    function Pc(): Pc
      requires server in state.sessions
      reads this
    {
      state.sessions[server].pc
    }

    /** One step of this server, then whatever the others do. */
    method Perform(action: Action, others: Pc -> seq<Event>)
      requires Inv(state) && Enabled(state, Event(server, action))
      modifies this`state
      ensures Inv(state) && At(NextSession(old(state), Event(server, action)))
      ensures state == Interfered(Do(old(state), Event(server, action)), server,
                                  others(NextSession(old(state), Event(server, action)).pc))
    {
      StepKeepsInv(state, Event(server, action));
      state := Do(state, Event(server, action));
      var between := others(Pc());
      InterferenceKeepsSession(state, server, between);
      state := Interfered(state, server, between);
    }

    method Commit(c: Session, choices: Choices, others: Pc -> seq<Event>) returns (pc: Pc)
      requires Inv(state) && At(c) && (c.pc.SaveCommit? || c.pc.TouchCommit?)
      modifies this`state
      ensures Inv(state) && At(c.(pc := pc))
      ensures pc == if choices.commitLost then AfterFailure(c.pc) else AfterCommit(old(state), server)
    {
      if choices.commitLost {
        Perform(LoseCommit(choices.at, choices.applied), others);
      } else {
        Perform(TokenCache.Action.Commit(choices.at), others);
      }
      pc := Pc();
    }

    /** A call of the database raises. */
    method Raise(c: Session, others: Pc -> seq<Event>) returns (pc: Pc)
      requires Inv(state) && At(c) && !c.pc.Done? && !c.pc.Releasing? && !c.pc.Closing?
      modifies this`state
      ensures Inv(state) && At(c.(pc := pc)) && pc == AfterFailure(c.pc)
    {
      Perform(Fail, others);
      pc := Pc();
    }

    method TouchThenCommit(c: Session, choices: Choices, others: Pc -> seq<Event>) returns (pc: Pc)
      requires Inv(state) && At(c) && c.pc.Touching?
      modifies this`state
      ensures Inv(state) && At(c.(pc := pc))
      ensures var outcome := if choices.commitLost then Raised else Returned(c.pc.token, false);
              pc == if c.pc.role.Holder? then Releasing(outcome) else Done(outcome)
    {
      Perform(Touch, others);
      pc := Commit(c.(pc := TouchCommit(c.pc.role, c.pc.token)), choices, others);
    }

    /** Marks a found token as used and commits: the holder's finally block is still to come. */
    method TouchAndCommit(c: Session, choices: Choices, others: Pc -> seq<Event>) returns (pc: Pc)
      requires Inv(state) && At(c) && c.pc.Touching?
      modifies this`state
      ensures Inv(state) && At(c.(pc := pc))
      ensures var raised := choices.touchFails || choices.commitLost;
              var outcome := if raised then Raised else Returned(c.pc.token, false);
              pc == if c.pc.role.Holder? then Releasing(outcome) else Done(outcome)
    {
      if choices.touchFails {
        pc := Raise(c, others);
      } else {
        pc := TouchThenCommit(c, choices, others);
      }
    }

    /** Leaves through the finally block: the lock is released or the session is closed. */
    method Finally(c: Session, choices: Choices, others: Pc -> seq<Event>) returns (outcome: Outcome)
      requires Inv(state) && At(c) && c.pc.Releasing?
      modifies this`state
      ensures Inv(state) && At(c.(pc := Done(outcome)))
      ensures outcome == if choices.releaseFails then Raised else c.pc.outcome
    {
      if choices.releaseFails {
        Perform(ReleaseFails, others);
        Perform(Close, others);
        outcome := Raised;
      } else {
        Perform(Release, others);
        outcome := c.pc.outcome;
      }
    }

    /** A look without the lock: a valid token is returned, otherwise the call has none. */
    method LookUnlocked(c: Session, choices: Choices, others: Pc -> seq<Event>) returns (outcome: Outcome)
      requires Inv(state) && At(c) && (c.pc.Reading? || c.pc.Waiting?)
      modifies this`state
      ensures Inv(state) && At(c.(pc := Done(outcome)))
      ensures LookedUp(outcome, old(state).rows, c, choices)
      ensures !outcome.Returned? && !outcome.Raised? ==>
                outcome == if c.pc.Waiting? then LockRefused else NoToken
    {
      if choices.lookFails {
        var raised := Raise(c, others);
        return raised.outcome;
      }
      LookStated(state, server);
      Perform(Look, others);
      var pc := Pc();
      if pc.Touching? {
        pc := TouchAndCommit(c.(pc := pc), choices, others);
      }
      outcome := pc.outcome;
    }

    /** The locked section up to its finally block. */
    method RenewLocked(c: Session, choices: Choices, others: Pc -> seq<Event>) returns (pc: Pc)
      requires Inv(state) && At(c) && c.pc.Locked?
      modifies this`state
      ensures Inv(state) && At(c.(pc := pc)) && pc.Releasing?
      ensures Renewed(pc.outcome, old(state).rows, c, choices)
    {
      if choices.lookFails {
        pc := Raise(c, others);
        return;
      }
      LookStated(state, server);
      Perform(Look, others);
      pc := Pc();
      if pc.Touching? {
        pc := TouchAndCommit(c.(pc := pc), choices, others);
      } else if choices.minted.None? {
        Perform(Fail, others);
        pc := Pc();
      } else {
        pc := SaveMinted(c.(pc := pc), choices, others);
      }
    }

    method SaveMinted(c: Session, choices: Choices, others: Pc -> seq<Event>) returns (pc: Pc)
      requires Inv(state) && At(c) && c.pc.Refreshing? && choices.minted.Some?
      modifies this`state
      ensures Inv(state) && At(c.(pc := pc))
      ensures pc == Releasing(if choices.saveFails || choices.commitLost then Raised
                              else Returned(choices.minted.value, true))
    {
      Perform(Refresh(choices.minted.value), others);
      if choices.saveFails {
        Perform(Fail, others);
        pc := Pc();
      } else {
        Perform(Upsert, others);
        pc := Commit(c.(pc := SaveCommit(choices.minted.value)), choices, others);
      }
    }

    // ---- the two calls ---------------------------------------------------------

    method ReadValid(key: RowKey, now: int, margin: int, choices: Choices, others: Pc -> seq<Event>)
      returns (outcome: Outcome)
      requires Inv(state) && Ready()
      modifies this`state
      ensures Inv(state) && At(Session(key, now, margin, Done(outcome)))
      ensures var seen := SeenByRead(old(state), server, key, now, margin, others);
              LookedUp(outcome, seen.rows, Session(key, now, margin, Reading), choices)
      ensures outcome.Returned? || outcome.NoToken? || outcome.Raised?
    {
      Perform(StartRead(key, now, margin), others);
      outcome := LookUnlocked(Session(key, now, margin, Reading), choices, others);
    }

    /** The granted part of a refresh: the locked section and its finally block. */
    method RenewAndRelease(c: Session, choices: Choices, others: Pc -> seq<Event>)
      returns (outcome: Outcome)
      requires Inv(state) && At(c) && c.pc.Locked?
      modifies this`state
      ensures Inv(state) && At(c.(pc := Done(outcome)))
      ensures if choices.releaseFails then outcome.Raised?
              else Renewed(outcome, old(state).rows, c, choices)
    {
      var pc := RenewLocked(c, choices, others);
      outcome := Finally(c.(pc := pc), choices, others);
    }

    /** From the lock request on. */
    method RequestAndRun(c: Session, choices: Choices, others: Pc -> seq<Event>)
      returns (outcome: Outcome)
      requires Inv(state) && At(c) && c.pc.Acquiring?
      modifies this`state
      ensures Inv(state) && At(c.(pc := Done(outcome)))
      ensures Answered(outcome, old(state), server, c, choices, others)
      ensures outcome.Returned? || outcome.LockRefused? || outcome.Raised?
    {
      if choices.acquireFails {
        var raised := Raise(c, others);
        return raised.outcome;
      }
      if LockGranted(state, server, choices) {
        Perform(Grant, others);
        outcome := RenewAndRelease(c.(pc := Locked), choices, others);
      } else {
        Perform(Timeout, others);
        outcome := LookUnlocked(c.(pc := Waiting), choices, others);
      }
    }

    /**
     * Whatever the world does, the call ends, holds no lock, and returns its own fresh token, a
     * stored one valid by the margin, or an error.
     */
    method RefreshWithLock(key: RowKey, now: int, margin: int, choices: Choices, others: Pc -> seq<Event>)
      returns (outcome: Outcome)
      requires Inv(state) && Ready()
      modifies this`state
      ensures Inv(state) && At(Session(key, now, margin, Done(outcome)))
      ensures forall name :: name in state.locks ==> state.locks[name] != server
      ensures var s, c := AtRequest(old(state), server, key, now, margin, others),
                          Session(key, now, margin, Acquiring);
              && server in s.sessions && s.sessions[server] == c
              && Answered(outcome, s, server, c, choices, others)
      ensures outcome.Returned? || outcome.LockRefused? || outcome.Raised?
    {
      Perform(StartRefresh(key, now, margin), others);
      outcome := RequestAndRun(Session(key, now, margin, Acquiring), choices, others);
    }
  }
}
