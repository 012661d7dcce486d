/**
 What the fields of a session mean: each is tied, in every state of every run, to which
 steps of which tasks came before.
 */
module LifecycleHistory {
  import opened Common
  import opened Lifecycle
  import opened LifecycleInvariant

  datatype Fact = BridgeUp | VoiceUp | ClosedDown | LoggedIn | ErrorDue

  predicate Holds(r: Session, f: Fact) {
    match f
    case BridgeUp => r.bridge
    case VoiceUp => r.voice
    case ClosedDown => r.closed
    case LoggedIn => r.authenticated
    case ErrorDue => (r.events.Finishing? || r.events.Removing?) && r.events.err
  }

  /** A teardown of `g` takes the session lock. */
  predicate TakesLock(s: State, a: Action, g: GenId) {
    a == Own(g, LockForFinish) || (a.CloseLock? && a.t in s.tasks && s.tasks[a.t] == Closing(g, AwaitLock))
  }

  /** A teardown of `g` comes to its second segment, where the Mumble voice goes. */
  predicate TakesVoice(s: State, a: Action, g: GenId) {
    a == Own(g, FinishVoice) || (a.CloseVoice? && a.t in s.tasks && s.tasks[a.t] == Closing(g, StoppingBridge))
  }

  /** The step that makes the fact true of `g`. */
  predicate Sets(s: State, a: Action, g: GenId, f: Fact) {
    match f
    case BridgeUp => a == Own(g, Attach)
    case VoiceUp => a == Own(g, Attach)
    case ClosedDown => TakesLock(s, a, g)
    case LoggedIn => a == Own(g, HandleConnected) && g in s.gens && !s.gens[g].closed
    case ErrorDue => a == Own(g, Break(true))
  }

  /** The step that makes it false again. */
  predicate Clears(s: State, a: Action, g: GenId, f: Fact) {
    match f
    case BridgeUp => TakesLock(s, a, g)
    case VoiceUp => TakesVoice(s, a, g)
    case ClosedDown => false
    case LoggedIn => false
    case ErrorDue => a == EventRemove(g)
  }

  // ---------------------------------------------------------------- one step

  ghost predicate Turns(s: State, a: Action, s': State, g: GenId, f: Fact)
    requires g in s.gens && g in s'.gens
  {
    Holds(s'.gens[g], f) <==> Sets(s, a, g, f) || (Holds(s.gens[g], f) && !Clears(s, a, g, f))
  }

  /** An action of another session, or of none. */
  lemma OthersTurnNothing(s: State, a: Action, s': State, g: GenId, f: Fact)
    requires g in s.gens && g in s'.gens && s'.gens[g] == s.gens[g]
    requires (a.Own? || a.EventRemove?) ==> a.g != g
    requires (a.CloseLock? || a.CloseVoice?) && a.t in s.tasks && s.tasks[a.t].Closing? ==> s.tasks[a.t].g != g
    ensures Turns(s, a, s', g, f)
  {
  }

  lemma OwnTurns(s: State, g: GenId, o: OwnStep, f: Fact)
    requires g in s.gens && OwnEnabled(s.gens[g], o) && SessionOk(s.gens[g])
    ensures Turns(s, Own(g, o), SetGen(s, g, OwnResult(s.gens[g], o)), g, f)
  {
  }

  lemma CloseLockTurns(s: State, t: TaskId, f: Fact)
    requires AtTask(s, t, AwaitLock) && SessionOk(s.gens[s.tasks[t].g])
    ensures Turns(s, CloseLock(t), Lock(s, t), s.tasks[t].g, f)
  {
  }

  lemma CloseVoiceTurns(s: State, t: TaskId, f: Fact)
    requires AtTask(s, t, StoppingBridge)
    ensures Turns(s, CloseVoice(t), TakeVoice(s, t), s.tasks[t].g, f)
  {
  }

  lemma CloseEndTurns(s: State, t: TaskId, f: Fact)
    requires AtTask(s, t, ClosingPeer)
    ensures Turns(s, CloseEnd(t), EndClose(s, t), s.tasks[t].g, f)
  {
  }

  lemma CloseCancelTurns(s: State, t: TaskId, f: Fact)
    requires t in s.tasks && s.tasks[t].Closing? && s.tasks[t].g in s.gens
    ensures Turns(s, CloseCancel(t), CancelClose(s, t), s.tasks[t].g, f)
  {
  }

  lemma IssueTurns(s: State, a: Action, f: Fact)
    requires a.EventIssue? && AtEvent(s, a.g, Issuing)
    ensures Turns(s, a, IssueForEvent(s, a.g, a.now, a.minted), a.g, f)
  {
  }

  lemma ReleaseTurns(s: State, g: GenId, f: Fact)
    requires CanFinish(s, g)
    ensures Turns(s, EventRelease(g), FinishRelease(s, g), g, f)
  {
  }

  lemma RemoveTurns(s: State, g: GenId, f: Fact)
    requires CanRemove(s, g)
    ensures Turns(s, EventRemove(g), FinishRemove(s, g), g, f)
  {
  }

  lemma RevokeTurns(s: State, g: GenId, f: Fact)
    requires AtEvent(s, g, Revoking)
    ensures Turns(s, EventRevoke(g), FinishRevoke(s, g), g, f)
  {
  }

  lemma InsertTurns(s: State, t: TaskId, g: GenId, f: Fact)
    requires CanInsert(s, t) && g in s.gens && s.gens[s.tasks[t].g].events == Unspawned
    ensures Turns(s, ConnectInsert(t), Insert(s, t), g, f)
  {
  }

  /** The session an action belongs to, if it is a step of a session's task or of its teardown. */
  function Subject(s: State, a: Action): Option<GenId> {
    match a
    case Own(g, _) => Some(g)
    case EventIssue(g, _, _) => Some(g)
    case EventRelease(g) => Some(g)
    case EventRemove(g) => Some(g)
    case EventRevoke(g) => Some(g)
    case CloseLock(t) => if t in s.tasks && s.tasks[t].Closing? then Some(s.tasks[t].g) else None
    case CloseVoice(t) => if t in s.tasks && s.tasks[t].Closing? then Some(s.tasks[t].g) else None
    case CloseEnd(t) => if t in s.tasks && s.tasks[t].Closing? then Some(s.tasks[t].g) else None
    case CloseCancel(t) => if t in s.tasks && s.tasks[t].Closing? then Some(s.tasks[t].g) else None
    case _ => None
  }

  ghost predicate Spared(s: State, s': State, g: GenId) {
    g in s.gens && g in s'.gens && s'.gens[g] == s.gens[g]
  }

  lemma CloseStartSparesOthers(s: State, a: Action, g: GenId)
    requires Enabled(s, a) && (a.CloseLock? || a.CloseVoice?) && g in s.gens && Subject(s, a) != Some(g)
    ensures Spared(s, Apply(s, a), g)
  {
  }

  lemma CloseEndSparesOthers(s: State, a: Action, g: GenId)
    requires Enabled(s, a) && (a.CloseEnd? || a.CloseCancel?) && g in s.gens && Subject(s, a) != Some(g)
    ensures Spared(s, Apply(s, a), g)
  {
  }

  lemma EventSparesOthers(s: State, a: Action, g: GenId)
    requires Enabled(s, a) && (a.Own? || a.EventIssue? || a.EventRelease?) && g in s.gens && Subject(s, a) != Some(g)
    ensures Spared(s, Apply(s, a), g)
  {
  }

  lemma EventEndSparesOthers(s: State, a: Action, g: GenId)
    requires Enabled(s, a) && (a.EventRemove? || a.EventRevoke?) && g in s.gens && Subject(s, a) != Some(g)
    ensures Spared(s, Apply(s, a), g)
  {
  }

  lemma CallSparesAll(s: State, a: Action, g: GenId)
    requires Enabled(s, a) && g in s.gens
    requires || a.BeginShutdown? || a.ConnectCheck? || a.ConnectAcquire? || a.ConnectAbandon? || a.ConnectCancel?
             || a.Disconnect? || a.Use? || a.UseEnd?
    ensures Spared(s, Apply(s, a), g)
  {
    assert Apply(s, a).gens == s.gens;
  }

  lemma HandlerSparesAll(s: State, a: Action, g: GenId)
    requires Enabled(s, a) && g in s.gens
    requires || a.HandlerOpen? || a.HandlerLookup? || a.HandlerIssue? || a.HandlerResume? || a.HandlerLeave?
             || a.HandlerDisconnect? || a.HandlerRevoke?
    ensures Spared(s, Apply(s, a), g)
  {
    assert Apply(s, a).gens == s.gens;
  }

  lemma BuildSparesOthers(s: State, t: TaskId, g: GenId)
    requires GensOk(s) && CanBuild(s, t) && g in s.gens
    ensures Spared(s, Build(s, t), g)
  {
  }

  lemma DropSparesOthers(s: State, h: GenId, g: GenId)
    requires h in s.gens && g in DropSession(s, h).gens
    ensures Spared(s, DropSession(s, h), g)
  {
  }

  lemma CallsSpare(s: State, a: Action, g: GenId)
    requires GensOk(s) && Enabled(s, a) && g in s.gens && g in Apply(s, a).gens
    requires !a.ConnectInsert? && !a.Own?
    requires !(a.CloseLock? || a.CloseVoice? || a.CloseEnd? || a.CloseCancel?)
    requires !(a.EventIssue? || a.EventRelease? || a.EventRemove? || a.EventRevoke?)
    ensures Spared(s, Apply(s, a), g)
  {
    if a.ConnectBuild? {
      BuildSparesOthers(s, a.t, g);
    } else if a.Drop? {
      DropSparesOthers(s, a.g, g);
    } else if || a.HandlerOpen? || a.HandlerLookup? || a.HandlerIssue? || a.HandlerResume? || a.HandlerLeave?
              || a.HandlerDisconnect? || a.HandlerRevoke? {
      HandlerSparesAll(s, a, g);
    } else {
      CallSparesAll(s, a, g);
    }
  }

  lemma SparesOthers(s: State, a: Action, g: GenId)
    requires GensOk(s) && Enabled(s, a) && g in s.gens && g in Apply(s, a).gens
    requires Subject(s, a) != Some(g) && !a.ConnectInsert?
    ensures Spared(s, Apply(s, a), g)
  {
    if a.CloseLock? || a.CloseVoice? {
      CloseStartSparesOthers(s, a, g);
    } else if a.CloseEnd? || a.CloseCancel? {
      CloseEndSparesOthers(s, a, g);
    } else if a.Own? || a.EventIssue? || a.EventRelease? {
      EventSparesOthers(s, a, g);
    } else if a.EventRemove? || a.EventRevoke? {
      EventEndSparesOthers(s, a, g);
    } else {
      CallsSpare(s, a, g);
    }
  }

  lemma EventTurns(s: State, a: Action, f: Fact)
    requires Enabled(s, a) && (a.EventIssue? || a.EventRelease? || a.EventRemove? || a.EventRevoke?)
    requires a.g in Apply(s, a).gens && a.g in s.gens
    ensures Turns(s, a, Apply(s, a), a.g, f)
  {
    if a.EventIssue? {
      IssueTurns(s, a, f);
    } else if a.EventRelease? {
      ReleaseTurns(s, a.g, f);
    } else if a.EventRemove? {
      RemoveTurns(s, a.g, f);
    } else {
      RevokeTurns(s, a.g, f);
    }
  }

  lemma CloserTurns(s: State, a: Action, g: GenId, f: Fact)
    requires Enabled(s, a) && (a.CloseLock? || a.CloseVoice? || a.CloseEnd? || a.CloseCancel?)
    requires Subject(s, a) == Some(g) && g in s.gens && SessionOk(s.gens[g]) && g in Apply(s, a).gens
    ensures Turns(s, a, Apply(s, a), g, f)
  {
    if a.CloseLock? {
      CloseLockTurns(s, a.t, f);
    } else if a.CloseVoice? {
      CloseVoiceTurns(s, a.t, f);
    } else if a.CloseEnd? {
      CloseEndTurns(s, a.t, f);
    } else {
      CloseCancelTurns(s, a.t, f);
    }
  }

  lemma SubjectTurns(s: State, a: Action, g: GenId, f: Fact)
    requires GensOk(s) && Enabled(s, a) && g in s.gens && g in Apply(s, a).gens && Subject(s, a) == Some(g)
    ensures Turns(s, a, Apply(s, a), g, f)
  {
    assert SessionOk(s.gens[g]);
    if a.Own? {
      OwnTurns(s, g, a.step, f);
    } else if a.EventIssue? || a.EventRelease? || a.EventRemove? || a.EventRevoke? {
      EventTurns(s, a, f);
    } else {
      CloserTurns(s, a, g, f);
    }
  }

  lemma InsertedIsUnspawned(s: State, t: TaskId)
    requires TasksOk(s) && CanInsert(s, t)
    ensures s.gens[s.tasks[t].g].events == Unspawned
  {
    assert TaskOk(s, t, s.tasks[t]);
  }

  lemma StepTurns(s: State, a: Action, g: GenId, f: Fact)
    requires Inv(s) && Enabled(s, a) && g in s.gens && g in Apply(s, a).gens
    ensures Turns(s, a, Apply(s, a), g, f)
  {
    if Subject(s, a) == Some(g) {
      SubjectTurns(s, a, g, f);
    } else if a.ConnectInsert? {
      InsertedIsUnspawned(s, a.t);
      InsertTurns(s, a.t, g, f);
    } else {
      SparesOthers(s, a, g);
      OthersTurnNothing(s, a, Apply(s, a), g, f);
    }
  }

  /** A session object comes into being blank, with the next generation number. */
  lemma BornBlank(s: State, a: Action, g: GenId, f: Fact)
    requires Enabled(s, a) && g !in s.gens
    ensures g in Apply(s, a).gens ==> g == s.nextGen && !Holds(Apply(s, a).gens[g], f)
  {
    if !a.ConnectBuild? {
      NoneBorn(s, a, g);
    }
  }

  lemma NoneBorn(s: State, a: Action, g: GenId)
    requires Enabled(s, a) && g !in s.gens && !a.ConnectBuild?
    ensures g !in Apply(s, a).gens
  {
    if a.CloseLock? || a.CloseVoice? {
      NoneBornClosing(s, a, g);
    } else if a.CloseEnd? || a.CloseCancel? {
      NoneBornAfterClosing(s, a, g);
    } else if a.Own? || a.EventIssue? || a.EventRelease? {
      NoneBornInEvents(s, a, g);
    } else if a.EventRemove? || a.EventRevoke? {
      NoneBornAfterEvents(s, a, g);
    } else if a.Drop? {
      NoneBornByDrop(s, a.g, g);
    } else if || a.HandlerOpen? || a.HandlerLookup? || a.HandlerIssue? || a.HandlerResume? || a.HandlerLeave?
              || a.HandlerDisconnect? || a.HandlerRevoke? {
      NoneBornInHandler(s, a, g);
    }
  }

  lemma NoneBornClosing(s: State, a: Action, g: GenId)
    requires Enabled(s, a) && g !in s.gens && (a.CloseLock? || a.CloseVoice?)
    ensures g !in Apply(s, a).gens
  {
  }

  lemma NoneBornAfterClosing(s: State, a: Action, g: GenId)
    requires Enabled(s, a) && g !in s.gens && (a.CloseEnd? || a.CloseCancel?)
    ensures g !in Apply(s, a).gens
  {
  }

  lemma NoneBornInEvents(s: State, a: Action, g: GenId)
    requires Enabled(s, a) && g !in s.gens && (a.Own? || a.EventIssue? || a.EventRelease?)
    ensures g !in Apply(s, a).gens
  {
  }

  lemma NoneBornAfterEvents(s: State, a: Action, g: GenId)
    requires Enabled(s, a) && g !in s.gens && (a.EventRemove? || a.EventRevoke?)
    ensures g !in Apply(s, a).gens
  {
  }

  lemma NoneBornByDrop(s: State, h: GenId, g: GenId)
    requires h in s.gens && g !in s.gens
    ensures g !in DropSession(s, h).gens
  {
  }

  lemma NoneBornInHandler(s: State, a: Action, g: GenId)
    requires Enabled(s, a) && g !in s.gens
    requires || a.HandlerOpen? || a.HandlerLookup? || a.HandlerIssue? || a.HandlerResume? || a.HandlerLeave?
             || a.HandlerDisconnect? || a.HandlerRevoke?
    ensures g !in Apply(s, a).gens
  {
  }

  // ---------------------------------------------------------------- whole runs

  ghost predicate SetAt(states: seq<State>, actions: seq<Action>, k: int, g: GenId, f: Fact)
    requires 0 <= k < |actions| < |states|
  {
    Sets(states[k], actions[k], g, f)
  }

  ghost predicate ClearedAt(states: seq<State>, actions: seq<Action>, k: int, g: GenId, f: Fact)
    requires 0 <= k < |actions| < |states|
  {
    Clears(states[k], actions[k], g, f)
  }

  /** Among the first `i` steps one set the fact and none cleared it after that. */
  ghost predicate StillSet(states: seq<State>, actions: seq<Action>, i: int, g: GenId, f: Fact)
    requires 0 <= i <= |actions| < |states|
  {
    exists k :: 0 <= k < i && SetAt(states, actions, k, g, f)
                && forall m | k < m < i :: !ClearedAt(states, actions, m, g, f)
  }

  lemma StillSetNext(states: seq<State>, actions: seq<Action>, i: int, g: GenId, f: Fact)
    requires 0 <= i < |actions| < |states|
    ensures StillSet(states, actions, i + 1, g, f) <==>
              || SetAt(states, actions, i, g, f)
              || (StillSet(states, actions, i, g, f) && !ClearedAt(states, actions, i, g, f))
  {
    if StillSet(states, actions, i, g, f) && !ClearedAt(states, actions, i, g, f) {
      var k :| 0 <= k < i && SetAt(states, actions, k, g, f)
               && forall m | k < m < i :: !ClearedAt(states, actions, m, g, f);
      assert forall m | k < m < i + 1 :: !ClearedAt(states, actions, m, g, f);
    }
  }

  lemma {:induction false} GenerationsGrow(states: seq<State>, actions: seq<Action>, capacity: nat, k: nat, i: nat)
    requires IsRun(states, actions, capacity) && k <= i < |states|
    ensures states[k].nextGen <= states[i].nextGen
    decreases i - k
  {
    if k < i {
      GenerationsGrow(states, actions, capacity, k, i - 1);
      assert StepAt(states, actions, i - 1);
      StepFrames(states[i - 1], actions[i - 1]);
    }
  }

  /** Only a session that exists has anything done to it. */
  lemma SetIsOfExisting(s: State, a: Action, g: GenId, f: Fact)
    requires Inv(s) && Enabled(s, a) && Sets(s, a, g, f)
    ensures g < s.nextGen
  {
    if a.CloseLock? {
      assert TaskOk(s, a.t, s.tasks[a.t]);
    }
  }

  lemma NewIsUnset(s: State, a: Action, g: GenId, f: Fact)
    requires Inv(s) && Enabled(s, a) && g !in s.gens
    ensures g in Apply(s, a).gens ==>
              g == s.nextGen && !Holds(Apply(s, a).gens[g], f) && !Sets(s, a, g, f)
  {
    BornBlank(s, a, g, f);
    if g in Apply(s, a).gens && Sets(s, a, g, f) {
      SetIsOfExisting(s, a, g, f);
    }
  }

  lemma NothingSetBefore(states: seq<State>, actions: seq<Action>, capacity: nat, i: nat, g: GenId, f: Fact)
    requires IsRun(states, actions, capacity) && i < |states| && states[i].nextGen <= g
    ensures !StillSet(states, actions, i, g, f)
  {
    if k :| 0 <= k < i && SetAt(states, actions, k, g, f) {
      RunKeepsInv(states, actions, capacity, k);
      assert StepAt(states, actions, k);
      SetIsOfExisting(states[k], actions[k], g, f);
      GenerationsGrow(states, actions, capacity, k, i);
      assert false;
    }
  }

  lemma RunTurns(states: seq<State>, actions: seq<Action>, capacity: nat, i: nat, g: GenId, f: Fact)
    requires IsRun(states, actions, capacity) && i < |actions| && g in states[i].gens && g in states[i + 1].gens
    ensures Holds(states[i + 1].gens[g], f) <==>
              SetAt(states, actions, i, g, f) || (Holds(states[i].gens[g], f) && !ClearedAt(states, actions, i, g, f))
  {
    assert StepAt(states, actions, i);
    RunKeepsInv(states, actions, capacity, i);
    StepTurns(states[i], actions[i], g, f);
  }

  lemma RunBorn(states: seq<State>, actions: seq<Action>, capacity: nat, i: nat, g: GenId, f: Fact)
    requires IsRun(states, actions, capacity) && i < |actions| && g !in states[i].gens && g in states[i + 1].gens
    ensures g == states[i].nextGen && !Holds(states[i + 1].gens[g], f) && !SetAt(states, actions, i, g, f)
  {
    assert StepAt(states, actions, i);
    RunKeepsInv(states, actions, capacity, i);
    NewIsUnset(states[i], actions[i], g, f);
  }

  /**
   In every state of every run, a session has a bridge, a Mumble voice, a logged-in user, a
   terminal error to send, or is closed, exactly if the step that brings that about has come
   and the step that undoes it has not come since.
   */
  lemma {:induction false} FieldsFollowSteps(
    states: seq<State>, actions: seq<Action>, capacity: nat, i: nat, g: GenId, f: Fact)
    requires IsRun(states, actions, capacity) && i < |states| && g in states[i].gens
    ensures Holds(states[i].gens[g], f) <==> StillSet(states, actions, i, g, f)
  {
    if i > 0 {
      StillSetNext(states, actions, i - 1, g, f);
      if g in states[i - 1].gens {
        FieldsFollowSteps(states, actions, capacity, i - 1, g, f);
        RunTurns(states, actions, capacity, i - 1, g, f);
      } else {
        RunBorn(states, actions, capacity, i - 1, g, f);
        NothingSetBefore(states, actions, capacity, i - 1, g, f);
      }
    }
  }

  // ---------------------------------------------------------------- what follows

  lemma RemoveSends(s: State, g: GenId)
    requires CanRemove(s, g)
    ensures FinishRemove(s, g).errors == s.errors + (if InMap(s, g) && Holds(s.gens[g], ErrorDue) then [g] else [])
  {
  }

  /**
   When a generation's event task comes to its cleanup, it sends a terminal error exactly if
   Mumble had disconnected it with a reason and it is still the one in the map.
   */
  lemma ErrorSentExactly(states: seq<State>, actions: seq<Action>, capacity: nat, i: nat, g: GenId)
    requires IsRun(states, actions, capacity) && i < |actions| && actions[i] == EventRemove(g)
    ensures states[i + 1].errors == states[i].errors + [g] <==>
              InMap(states[i], g) && exists k :: 0 <= k < i && actions[k] == Own(g, Break(true))
  {
    assert StepAt(states, actions, i);
    RemoveSends(states[i], g);
    FieldsFollowSteps(states, actions, capacity, i, g, ErrorDue);
    if StillSet(states, actions, i, g, ErrorDue) {
      var k :| 0 <= k < i && SetAt(states, actions, k, g, ErrorDue);
      assert actions[k] == Own(g, Break(true));
    } else if k :| 0 <= k < i && actions[k] == Own(g, Break(true)) {
      assert SetAt(states, actions, k, g, ErrorDue);
      var m :| k < m < i && ClearedAt(states, actions, m, g, ErrorDue);
      RemovedOnce(states, actions, capacity, m, i, g);
    }
  }

  /** Past its cleanup an event task does not come to it again. */
  predicate Cleaned(s: State, g: GenId) {
    g < s.nextGen && (g in s.gens ==> s.gens[g].events == Revoking || s.gens[g].events == Done)
  }

  lemma CleanedStays(s: State, a: Action, g: GenId)
    requires Inv(s) && Enabled(s, a) && Cleaned(s, g)
    ensures Cleaned(Apply(s, a), g)
  {
    StepFrames(s, a);
    if g in Apply(s, a).gens {
      if g !in s.gens {
        BornBlank(s, a, g, ErrorDue);
      } else if Subject(s, a) == Some(g) {
        SubjectStaysCleaned(s, a, g);
      } else if a.ConnectInsert? {
        InsertedIsUnspawned(s, a.t);
        InsertSpares(s, a.t, g);
      } else {
        SparesOthers(s, a, g);
      }
    }
  }

  lemma InsertSpares(s: State, t: TaskId, g: GenId)
    requires CanInsert(s, t) && g in s.gens && s.tasks[t].g != g
    ensures Spared(s, Insert(s, t), g)
  {
  }

  lemma SubjectStaysCleaned(s: State, a: Action, g: GenId)
    requires Enabled(s, a) && Cleaned(s, g) && Subject(s, a) == Some(g) && g in s.gens && g in Apply(s, a).gens
    ensures Apply(s, a).gens[g].events == Revoking || Apply(s, a).gens[g].events == Done
  {
    if a.CloseLock? || a.CloseVoice? {
      CloseStartKeepsEvents(s, a, g);
    } else if a.CloseEnd? || a.CloseCancel? {
      CloseEndKeepsEvents(s, a, g);
    } else if a.Own? {
      OwnStaysCleaned(s.gens[g], a.step);
    } else {
      assert a.EventRevoke?;
    }
  }

  lemma OwnStaysCleaned(r: Session, o: OwnStep)
    requires OwnEnabled(r, o) && (r.events == Revoking || r.events == Done)
    ensures OwnResult(r, o).events == r.events
  {
  }

  lemma CloseStartKeepsEvents(s: State, a: Action, g: GenId)
    requires Enabled(s, a) && (a.CloseLock? || a.CloseVoice?) && Subject(s, a) == Some(g)
    ensures g in s.gens && g in Apply(s, a).gens && Apply(s, a).gens[g].events == s.gens[g].events
  {
  }

  lemma CloseEndKeepsEvents(s: State, a: Action, g: GenId)
    requires Enabled(s, a) && (a.CloseEnd? || a.CloseCancel?) && Subject(s, a) == Some(g)
    ensures g in s.gens && g in Apply(s, a).gens && Apply(s, a).gens[g].events == s.gens[g].events
  {
  }

  lemma {:induction false} RemovedOnce(
    states: seq<State>, actions: seq<Action>, capacity: nat, m: nat, i: nat, g: GenId)
    requires IsRun(states, actions, capacity) && m < i < |states| && actions[m] == EventRemove(g)
    ensures Cleaned(states[i], g)
    decreases i - m
  {
    RunKeepsInv(states, actions, capacity, i - 1);
    assert StepAt(states, actions, i - 1);
    if i == m + 1 {
      StepFrames(states[m], actions[m]);
      assert states[m].gens[g].events.Removing?;
    } else {
      RemovedOnce(states, actions, capacity, m, i - 1, g);
      CleanedStays(states[i - 1], actions[i - 1], g);
    }
  }

  /** A handler issues a credential only for a session whose login was handled while it was open. */
  lemma HandlerIssuesAfterLogin(states: seq<State>, actions: seq<Action>, capacity: nat, i: nat)
    requires IsRun(states, actions, capacity) && i < |actions| && actions[i].HandlerIssue?
    ensures var conn := actions[i].conn;
            && conn in states[i].handlers && states[i].handlers[conn].Refreshing?
            && var g := states[i].handlers[conn].g;
               exists k :: 0 <= k < i && actions[k] == Own(g, HandleConnected)
                           && g in states[k].gens && !states[k].gens[g].closed
  {
    assert StepAt(states, actions, i);
    var g := states[i].handlers[actions[i].conn].g;
    FieldsFollowSteps(states, actions, capacity, i, g, LoggedIn);
    var k :| 0 <= k < i && SetAt(states, actions, k, g, LoggedIn);
    assert actions[k] == Own(g, HandleConnected);
  }

  lemma {:induction false} StoppingExactly(states: seq<State>, actions: seq<Action>, capacity: nat, i: nat)
    requires IsRun(states, actions, capacity) && i < |states|
    ensures states[i].stopping <==> BeginShutdown in actions[..i]
  {
    if i > 0 {
      StoppingExactly(states, actions, capacity, i - 1);
      assert StepAt(states, actions, i - 1);
      StepFrames(states[i - 1], actions[i - 1]);
      assert actions[..i] == actions[..i - 1] + [actions[i - 1]];
    }
  }

  /** No connect begins once the server is shutting down. */
  lemma NoConnectAfterShutdown(states: seq<State>, actions: seq<Action>, capacity: nat, i: nat, k: nat)
    requires IsRun(states, actions, capacity) && k < i < |actions| && actions[k] == BeginShutdown
    ensures !actions[i].ConnectCheck?
  {
    StoppingExactly(states, actions, capacity, i);
    assert actions[..i][k] == BeginShutdown;
    assert StepAt(states, actions, i);
  }
}
