/** What holds of every run of the session lifecycle, however its tasks interleave. */
module LifecycleTheorems {
  import opened Common
  import opened Lifecycle
  import opened LifecycleInvariant
  import TC = TurnCredentials

  // ---------------------------------------------------------------- capacity

  /** In every state each permit is free, held by one connect, or in the slot of one session. */
  lemma CapacityConserved(states: seq<State>, actions: seq<Action>, capacity: nat, i: nat)
    requires IsRun(states, actions, capacity) && i < |states|
    ensures states[i].free + |HeldByConnects(states[i])| + |HeldBySessions(states[i])| == capacity
  {
    RunKeepsInv(states, actions, capacity, i);
  }

  /** A session's permit comes back at most once, and has come back exactly if its slot is no longer set. */
  lemma ReleasedOnce(states: seq<State>, actions: seq<Action>, capacity: nat, i: nat, g: GenId)
    requires IsRun(states, actions, capacity) && i < |states| && g < states[i].nextGen
    ensures multiset(states[i].released)[g] == if g in HeldBySessions(states[i]) then 0 else 1
  {
    RunKeepsInv(states, actions, capacity, i);
    CountInLog(states[i].released, g);
  }

  lemma {:induction false} CountInLog(log: seq<GenId>, g: GenId)
    requires NoRepeats(log)
    ensures multiset(log)[g] == if g in log then 1 else 0
  {
    if log != [] {
      var init, last := log[..|log| - 1], log[|log| - 1];
      assert log == init + [last];
      CountInLog(init, g);
    }
  }

  /** No task of any kind is left to run. */
  ghost predicate AllFinished(s: State) {
    && s.tasks == map[]
    && (forall g | g in s.gens :: s.gens[g].events in {Unspawned, Done} && s.gens[g].voicePc != Pending)
    && (forall c | c in s.handlers :: !s.handlers[c].Refreshing?)
  }

  /**
   Once every connect, disconnect, use, event and voice-setup task has finished, after
   whatever failures, cancellations and duplicates, the map is empty and every session
   object still in memory is unreferenced; when those are gone all permits are free.
   */
  lemma AllFinishedLeavesNothing(states: seq<State>, actions: seq<Action>, capacity: nat, i: nat)
    requires IsRun(states, actions, capacity) && i < |states| && AllFinished(states[i])
    ensures states[i].sessions == map[]
    ensures forall g | g in states[i].gens :: Enabled(states[i], Drop(g))
    ensures (forall g :: !Enabled(states[i], Drop(g))) ==> states[i].free == capacity
  {
    var s := states[i];
    RunKeepsInv(states, actions, capacity, i);
    forall c
      ensures c !in s.sessions
    {
      if c in s.sessions {
        assert false;
      }
    }
    assert HeldByConnects(s) == {};
    forall g | g in s.gens
      ensures Enabled(s, Drop(g))
    {
    }
    if forall g :: !Enabled(s, Drop(g)) {
      assert HeldBySessions(s) == {};
    }
  }

  // ---------------------------------------------------------------- generations

  lemma InsertKeepsEntry(s: State, t: TaskId, conn: Conn)
    requires CanInsert(s, t) && conn in s.sessions
    ensures conn in Insert(s, t).sessions && Insert(s, t).sessions[conn] == s.sessions[conn]
  {
  }

  lemma DisconnectKeepsOthers(s: State, gone: Conn, conn: Conn)
    requires conn in s.sessions && conn != gone
    ensures conn in BeginDisconnect(s, gone).sessions && BeginDisconnect(s, gone).sessions[conn] == s.sessions[conn]
  {
  }

  lemma FinishKeepsOthers(s: State, g: GenId, conn: Conn)
    requires CanRemove(s, g) && conn in s.sessions && s.sessions[conn] != g
    ensures conn in FinishRemove(s, g).sessions && FinishRemove(s, g).sessions[conn] == s.sessions[conn]
  {
  }

  /**
   The map changes only at the current generation: an entry goes away only by an explicit
   disconnect of that connection or by the event task of the very session it names, and no
   step overwrites one session with another.
   */
  lemma OldGenerationKeepsOut(states: seq<State>, actions: seq<Action>, capacity: nat, i: nat, conn: Conn)
    requires IsRun(states, actions, capacity) && i < |actions| && conn in states[i].sessions
    requires var a, g := actions[i], states[i].sessions[conn];
             a != Disconnect(conn) && a != HandlerDisconnect(conn) && a != EventRemove(g)
    ensures conn in states[i + 1].sessions && states[i + 1].sessions[conn] == states[i].sessions[conn]
  {
    assert StepAt(states, actions, i);
    var s, a := states[i], actions[i];
    StepFrames(s, a);
    if a.ConnectInsert? {
      InsertKeepsEntry(s, a.t, conn);
    } else if a.Disconnect? || a.HandlerDisconnect? {
      DisconnectKeepsOthers(s, a.conn, conn);
    } else if a.EventRemove? {
      FinishKeepsOthers(s, a.g, conn);
    }
  }

  /**
   A disconnect, by a caller or by the handler on its way out, takes the connection out of the
   map at once and, if it was there, begins the teardown of the session it named.
   */
  lemma DisconnectUnmaps(states: seq<State>, actions: seq<Action>, capacity: nat, i: nat, conn: Conn)
    requires IsRun(states, actions, capacity) && i < |actions|
    requires actions[i] == Disconnect(conn) || actions[i] == HandlerDisconnect(conn)
    ensures conn !in states[i + 1].sessions
    ensures conn in states[i].sessions ==>
              var t := states[i].nextTask;
              && t !in states[i].tasks && t in states[i + 1].tasks
              && states[i + 1].tasks[t] == Closing(states[i].sessions[conn], AwaitLock)
  {
    assert StepAt(states, actions, i);
    RunKeepsInv(states, actions, capacity, i);
  }

  /** A call on a session holds on to the generation in the map at that moment. */
  lemma UseHoldsOn(states: seq<State>, actions: seq<Action>, capacity: nat, i: nat, conn: Conn)
    requires IsRun(states, actions, capacity) && i < |actions| && actions[i] == Use(conn)
    ensures conn in states[i].sessions
    ensures var t := states[i].nextTask;
            t !in states[i].tasks && t in states[i + 1].tasks && states[i + 1].tasks[t] == Using(states[i].sessions[conn])
  {
    assert StepAt(states, actions, i);
    RunKeepsInv(states, actions, capacity, i);
  }

  /** A session that some call still uses is not dropped. */
  lemma InUseIsKept(states: seq<State>, actions: seq<Action>, capacity: nat, i: nat, t: TaskId)
    requires IsRun(states, actions, capacity) && i < |states|
    requires t in states[i].tasks && states[i].tasks[t].Using?
    ensures states[i].tasks[t].g in states[i].gens && !Enabled(states[i], Drop(states[i].tasks[t].g))
  {
    RunKeepsInv(states, actions, capacity, i);
    assert TaskOk(states[i], t, states[i].tasks[t]);
    assert TaskRefers(states[i].tasks[t], states[i].tasks[t].g);
  }

  /** How a handler gets from one place to the next. */
  function HandlerNext(s: State, a: Action, conn: Conn): HandlerPc
    requires conn in s.handlers || a == HandlerOpen(conn)
  {
    match a
    case HandlerOpen(c) => if c == conn then Looping else s.handlers[conn]
    case HandlerLookup(c) => if c == conn && conn in s.sessions then Refreshing(s.sessions[conn]) else s.handlers[conn]
    case HandlerIssue(c, _, _) => if c == conn then Looping else s.handlers[conn]
    case HandlerResume(c) => if c == conn then Looping else s.handlers[conn]
    case HandlerLeave(c) => if c == conn then Leaving else s.handlers[conn]
    case HandlerDisconnect(c) =>
      if c == conn then Disconnected(if conn in s.sessions then Some(s.nextTask) else None) else s.handlers[conn]
    case HandlerRevoke(c) => if c == conn then Gone else s.handlers[conn]
    case _ => s.handlers[conn]
  }

  ghost predicate HandlerMoves(s: State, a: Action, s': State, conn: Conn) {
    && (conn in s'.handlers <==> conn in s.handlers || a == HandlerOpen(conn))
    && (conn in s'.handlers ==> s'.handlers[conn] == HandlerNext(s, a, conn))
  }

  lemma HandlerLoops(s: State, a: Action, conn: Conn)
    requires Enabled(s, a) && (a.HandlerOpen? || a.HandlerLookup? || a.HandlerResume? || a.HandlerLeave?)
    ensures HandlerMoves(s, a, Apply(s, a), conn)
  {
  }

  lemma HandlerEnds(s: State, a: Action, conn: Conn)
    requires Enabled(s, a) && (a.HandlerIssue? || a.HandlerDisconnect? || a.HandlerRevoke?)
    ensures HandlerMoves(s, a, Apply(s, a), conn)
  {
  }

  lemma OthersLeaveHandler(s: State, a: Action, s': State, conn: Conn)
    requires !IsHandlerStep(a) && s'.handlers == s.handlers
    ensures HandlerMoves(s, a, s', conn)
  {
  }

  lemma HandlerSteps(s: State, a: Action, conn: Conn)
    requires Enabled(s, a)
    ensures HandlerMoves(s, a, Apply(s, a), conn)
  {
    if a.HandlerOpen? || a.HandlerLookup? || a.HandlerResume? || a.HandlerLeave? {
      HandlerLoops(s, a, conn);
    } else if a.HandlerIssue? || a.HandlerDisconnect? || a.HandlerRevoke? {
      HandlerEnds(s, a, conn);
    } else {
      StepFrames(s, a);
      OthersLeaveHandler(s, a, Apply(s, a), conn);
    }
  }

  /** The handler's disconnect was step `k`, and it waits for the teardown that began there, if one did. */
  ghost predicate DisconnectedAt(states: seq<State>, actions: seq<Action>, k: int, conn: Conn, pc: HandlerPc)
    requires 0 <= k < |actions| < |states|
  {
    && actions[k] == HandlerDisconnect(conn)
    && pc == Disconnected(if conn in states[k].sessions then Some(states[k].nextTask) else None)
  }

  lemma {:induction false} DisconnectedSince(states: seq<State>, actions: seq<Action>, capacity: nat, i: nat, conn: Conn)
    returns (k: nat)
    requires IsRun(states, actions, capacity) && i < |states|
    requires conn in states[i].handlers && states[i].handlers[conn].Disconnected?
    ensures k < i && DisconnectedAt(states, actions, k, conn, states[i].handlers[conn])
  {
    assert StepAt(states, actions, i - 1);
    HandlerSteps(states[i - 1], actions[i - 1], conn);
    if actions[i - 1] == HandlerDisconnect(conn) {
      k := i - 1;
    } else {
      k := DisconnectedSince(states, actions, capacity, i - 1, conn);
    }
  }

  /** A handler revokes only after its own disconnect, and after the teardown begun there has ended. */
  lemma RevokeAfterTeardown(states: seq<State>, actions: seq<Action>, capacity: nat, i: nat, conn: Conn) returns (k: nat)
    requires IsRun(states, actions, capacity) && i < |actions| && actions[i] == HandlerRevoke(conn)
    ensures k < i && actions[k] == HandlerDisconnect(conn)
    ensures conn in states[k].sessions ==> states[k].nextTask !in states[i].tasks
  {
    assert StepAt(states, actions, i);
    k := DisconnectedSince(states, actions, capacity, i, conn);
  }

  lemma FinishRemoveErrors(s: State, g: GenId)
    requires CanRemove(s, g) && FinishRemove(s, g).errors != s.errors
    ensures InMap(s, g) && FinishRemove(s, g).errors == s.errors + [g] && s.gens[g].conn !in FinishRemove(s, g).sessions
  {
  }

  /**
   A terminal error is sent by the generation that is still in the map, in the step that
   takes it out, after its slot was released; and it has not sent one before.
   */
  lemma ErrorOnlyFromCurrent(states: seq<State>, actions: seq<Action>, capacity: nat, i: nat)
    requires IsRun(states, actions, capacity) && i < |actions|
    requires states[i + 1].errors != states[i].errors
    ensures actions[i].EventRemove? && states[i + 1].errors == states[i].errors + [actions[i].g]
    ensures var g := actions[i].g;
            InMap(states[i], g) && !states[i].gens[g].slot && g !in states[i].errors
            && states[i].gens[g].conn !in states[i + 1].sessions
  {
    RunKeepsInv(states, actions, capacity, i);
    assert StepAt(states, actions, i);
    StepFrames(states[i], actions[i]);
    var s, g := states[i], actions[i].g;
    FinishRemoveErrors(s, g);
    assert SessionOk(s.gens[g]) && MappedOk(s.gens[g]);
  }

  lemma ErrorsAtMostOnce(states: seq<State>, actions: seq<Action>, capacity: nat, i: nat, g: GenId)
    requires IsRun(states, actions, capacity) && i < |states|
    ensures multiset(states[i].errors)[g] <= 1
    ensures g in states[i].errors ==> g in states[i].released && !InMap(states[i], g)
  {
    RunKeepsInv(states, actions, capacity, i);
    CountInLog(states[i].errors, g);
  }

  // ---------------------------------------------------------------- teardown

  lemma {:induction false} ReleasedGrows(states: seq<State>, actions: seq<Action>, capacity: nat, i: nat, j: nat)
    requires IsRun(states, actions, capacity) && i <= j < |states|
    ensures states[i].released <= states[j].released
    decreases j - i
  {
    if i < j {
      ReleasedGrows(states, actions, capacity, i, j - 1);
      assert StepAt(states, actions, j - 1);
      StepFrames(states[j - 1], actions[j - 1]);
    }
  }

  /**
   A session that has been torn down never again holds a bridge, a Mumble voice or a
   voice-setup task, whichever of event-task start, voice setup and disconnect came first.
   */
  lemma TornDownStaysDown(states: seq<State>, actions: seq<Action>, capacity: nat, i: nat, j: nat, g: GenId)
    requires IsRun(states, actions, capacity) && i <= j < |states|
    requires g in states[i].gens && !states[i].gens[g].slot && g in states[j].gens
    ensures var r := states[j].gens[g];
            r.closed && !r.slot && !r.bridge && !r.voice && !r.handle && r.voicePc != Pending
  {
    RunKeepsInv(states, actions, capacity, i);
    RunKeepsInv(states, actions, capacity, j);
    ReleasedGrows(states, actions, capacity, i, j);
    assert g in states[i].released;
    assert g in states[j].released;
    assert SessionOk(states[j].gens[g]);
  }

  // ---------------------------------------------------------------- TURN credentials

  /**
   Once a connection's handler and all its event tasks have finished, none of its TURN
   credentials is left, even though a Connected event may issue one after the handler's
   own revoke.
   */
  lemma NoCredentialLeftBehind(states: seq<State>, actions: seq<Action>, capacity: nat, i: nat, conn: Conn)
    requires IsRun(states, actions, capacity) && i < |states|
    requires !HandlerActive(states[i], conn)
    requires forall g | g in states[i].gens && states[i].gens[g].conn == conn ::
               states[i].gens[g].events in {Unspawned, Starting, Done}
    ensures TC.Held(states[i].table, conn) == {}
  {
    RunKeepsInv(states, actions, capacity, i);
    var s := states[i];
    assert !RevokerPending(s, conn);
  }
}
