/**
 When a reconnect's TURN credentials are safe.  Credentials belong to a connection, and the
 event task of every generation of it ends in a revoke, so an older generation can take a
 credential from the one now in the map.  It can do so exactly while its event task may
 still reach that revoke.
 */
module LifecycleReconnect {
  import opened Lifecycle
  import opened LifecycleInvariant
  import TC = TurnCredentials

  // ---------------------------------------------------------------- generations that are spent

  /** The event task of this session never reaches its revoke again. */
  predicate Spent(r: Session) {
    r.events == Unspawned || r.events == Done || (r.events == Starting && r.closed)
  }

  predicate MapsTo(s: State, conn: Conn, g: GenId) {
    conn in s.sessions && s.sessions[conn] == g
  }

  /** Every other generation of the connection is spent. */
  ghost predicate Safe(s: State, conn: Conn, g: GenId) {
    forall h | h in s.gens && h != g && s.gens[h].conn == conn :: Spent(s.gens[h])
  }

  /** Nothing that happens to `r` brings a spent event task back. */
  ghost predicate Advances(r: Session, q: Session) {
    q.conn == r.conn && (Spent(r) ==> Spent(q))
  }

  /** Sessions of a connection that is in the map advance; new ones have no event task. */
  ghost predicate SessionsAdvance(s: State, s': State, conn: Conn) {
    forall h | h in s'.gens && s'.gens[h].conn == conn ::
      if h in s.gens then Advances(s.gens[h], s'.gens[h]) else s'.gens[h].events == Unspawned
  }

  lemma BuildAdvances(s: State, t: TaskId, conn: Conn)
    requires GensOk(s) && CanBuild(s, t)
    ensures SessionsAdvance(s, Build(s, t), conn)
  {
    assert s.nextGen !in s.gens;
  }

  lemma InsertAdvances(s: State, t: TaskId, conn: Conn)
    requires CanInsert(s, t) && conn in s.sessions
    ensures SessionsAdvance(s, Insert(s, t), conn)
  {
  }

  lemma CallAdvances(s: State, a: Action, conn: Conn)
    requires Enabled(s, a)
    requires || a.BeginShutdown? || a.ConnectCheck? || a.ConnectAcquire? || a.ConnectAbandon? || a.ConnectCancel?
             || a.Disconnect? || a.Use? || a.UseEnd?
    ensures SessionsAdvance(s, Apply(s, a), conn)
  {
    assert Apply(s, a).gens == s.gens;
  }

  /** One session changes and advances. */
  lemma OneAdvances(s: State, s': State, g: GenId, conn: Conn)
    requires g in s.gens && g in s'.gens && s'.gens == s.gens[g := s'.gens[g]] && Advances(s.gens[g], s'.gens[g])
    ensures SessionsAdvance(s, s', conn)
  {
  }

  lemma CloseStartAdvances(s: State, a: Action, conn: Conn)
    requires Enabled(s, a) && (a.CloseLock? || a.CloseVoice?)
    ensures SessionsAdvance(s, Apply(s, a), conn)
  {
    OneAdvances(s, Apply(s, a), s.tasks[a.t].g, conn);
  }

  lemma CloseEndAdvances(s: State, t: TaskId, conn: Conn)
    requires AtTask(s, t, ClosingPeer)
    ensures SessionsAdvance(s, EndClose(s, t), conn)
  {
    OneAdvances(s, EndClose(s, t), s.tasks[t].g, conn);
  }

  lemma CloseCancelAdvances(s: State, t: TaskId, conn: Conn)
    requires t in s.tasks && s.tasks[t].Closing? && s.tasks[t].g in s.gens
    ensures SessionsAdvance(s, CancelClose(s, t), conn)
  {
    OneAdvances(s, CancelClose(s, t), s.tasks[t].g, conn);
  }

  lemma OwnAdvances(s: State, g: GenId, o: OwnStep, conn: Conn)
    requires g in s.gens && OwnEnabled(s.gens[g], o)
    ensures SessionsAdvance(s, SetGen(s, g, OwnResult(s.gens[g], o)), conn)
  {
    assert Advances(s.gens[g], OwnResult(s.gens[g], o));
  }

  lemma EventAdvances(s: State, a: Action, conn: Conn)
    requires Enabled(s, a) && (a.EventIssue? || a.EventRelease? || a.EventRemove? || a.EventRevoke?)
    ensures SessionsAdvance(s, Apply(s, a), conn)
  {
    OneAdvances(s, Apply(s, a), a.g, conn);
  }

  lemma DropAdvances(s: State, g: GenId, conn: Conn)
    requires g in s.gens
    ensures SessionsAdvance(s, DropSession(s, g), conn)
  {
  }

  lemma HandlerAdvances(s: State, a: Action, conn: Conn)
    requires Enabled(s, a)
    requires || a.HandlerOpen? || a.HandlerLookup? || a.HandlerIssue? || a.HandlerResume? || a.HandlerLeave?
             || a.HandlerDisconnect? || a.HandlerRevoke?
    ensures SessionsAdvance(s, Apply(s, a), conn)
  {
    assert Apply(s, a).gens == s.gens;
  }

  lemma OthersAdvance(s: State, a: Action, conn: Conn)
    requires Enabled(s, a) && !a.ConnectBuild? && !a.ConnectInsert? && !a.Own? && !a.Drop?
    requires !(a.CloseLock? || a.CloseVoice? || a.CloseEnd? || a.CloseCancel?)
    requires !(a.EventIssue? || a.EventRelease? || a.EventRemove? || a.EventRevoke?)
    ensures SessionsAdvance(s, Apply(s, a), conn)
  {
    if || a.HandlerOpen? || a.HandlerLookup? || a.HandlerIssue? || a.HandlerResume? || a.HandlerLeave?
       || a.HandlerDisconnect? || a.HandlerRevoke? {
      HandlerAdvances(s, a, conn);
    } else {
      CallAdvances(s, a, conn);
    }
  }

  lemma StepAdvances(s: State, a: Action, conn: Conn)
    requires GensOk(s) && Enabled(s, a) && conn in s.sessions
    ensures SessionsAdvance(s, Apply(s, a), conn)
  {
    if a.ConnectBuild? {
      BuildAdvances(s, a.t, conn);
    } else if a.ConnectInsert? {
      InsertAdvances(s, a.t, conn);
    } else if a.CloseLock? || a.CloseVoice? {
      CloseStartAdvances(s, a, conn);
    } else if a.CloseEnd? {
      CloseEndAdvances(s, a.t, conn);
    } else if a.CloseCancel? {
      CloseCancelAdvances(s, a.t, conn);
    } else if a.Own? {
      OwnAdvances(s, a.g, a.step, conn);
    } else if a.EventIssue? || a.EventRelease? || a.EventRemove? || a.EventRevoke? {
      EventAdvances(s, a, conn);
    } else if a.Drop? {
      DropAdvances(s, a.g, conn);
    } else {
      OthersAdvance(s, a, conn);
    }
  }

  /** As long as the connection is in the map, safety is kept. */
  lemma StepKeepsSafe(s: State, a: Action, conn: Conn, g: GenId)
    requires GensOk(s) && Enabled(s, a) && MapsTo(s, conn, g) && Safe(s, conn, g)
    ensures Safe(Apply(s, a), conn, g)
  {
    StepAdvances(s, a, conn);
  }

  // ---------------------------------------------------------------- what takes a credential away

  ghost predicate Revokes(s: State, a: Action, conn: Conn) {
    (a.EventRevoke? && a.g in s.gens && s.gens[a.g].conn == conn) || a == HandlerRevoke(conn)
  }

  function TableAfter(s: State, a: Action): TC.Table {
    match a
    case EventRevoke(g) => if g in s.gens then TC.RevokeTable(s.table, s.gens[g].conn) else s.table
    case HandlerRevoke(conn) => TC.RevokeTable(s.table, conn)
    case EventIssue(_, now, minted) => TC.IssueTable(s.table, minted, now)
    case HandlerIssue(_, now, minted) => TC.IssueTable(s.table, minted, now)
    case _ => s.table
  }

  lemma RevokeSteps(s: State, a: Action)
    requires Enabled(s, a) && (a.EventRevoke? || a.HandlerRevoke?)
    ensures Apply(s, a).table == TableAfter(s, a)
  {
  }

  lemma IssueSteps(s: State, a: Action)
    requires Enabled(s, a) && IsIssue(a)
    ensures Apply(s, a).table == TableAfter(s, a)
  {
  }

  lemma TableSteps(s: State, a: Action)
    requires Enabled(s, a)
    ensures Apply(s, a).table == TableAfter(s, a)
  {
    if a.EventRevoke? || a.HandlerRevoke? {
      RevokeSteps(s, a);
    } else if IsIssue(a) {
      IssueSteps(s, a);
    } else {
      StepFrames(s, a);
    }
  }

  /**
   In one step a credential leaves the table exactly by a revoke of its connection, by the
   handler or by the event task of any generation, or by an issue at or after its expiry.
   */
  lemma CredentialLostExactly(s: State, a: Action, u: string)
    requires u in s.table && (IsIssue(a) ==> a.minted.username != u)
    ensures u !in TableAfter(s, a) <==>
              || Revokes(s, a, s.table[u].session)
              || (IsIssue(a) && s.table[u].expiresAt <= a.now)
    ensures u in TableAfter(s, a) ==> TableAfter(s, a)[u] == s.table[u]
  {
  }

  // ---------------------------------------------------------------- continuations

  /** A step that leaves the credential named `u` alone, as far as the handler and the clock are concerned. */
  predicate Spares(a: Action, conn: Conn, u: string, now: nat, expires: nat) {
    a != HandlerRevoke(conn) && (IsIssue(a) ==> now <= a.now < expires && a.minted.username != u)
  }

  /**
   Some further steps of the server, from time `now` on, during which generation `g` stays
   in the map, the handler does not revoke and the credential does not expire.
   */
  ghost predicate Undisturbed(
    path: seq<State>, acts: seq<Action>, conn: Conn, g: GenId, u: string, now: nat, expires: nat)
  {
    && |path| == |acts| + 1
    && (forall k | 0 <= k < |acts| :: QuietAt(path, acts, k, conn, g, u, now, expires))
    && MapsTo(path[|acts|], conn, g)
  }

  ghost predicate QuietAt(
    path: seq<State>, acts: seq<Action>, k: int, conn: Conn, g: GenId, u: string, now: nat, expires: nat)
    requires |path| == |acts| + 1 && 0 <= k < |acts|
  {
    Goes(path[k], acts[k], path[k + 1]) && MapsTo(path[k], conn, g) && Spares(acts[k], conn, u, now, expires)
  }

  ghost predicate HasCredential(s: State, conn: Conn, u: string, expires: nat) {
    u in s.table && s.table[u].session == conn && s.table[u].expiresAt == expires
  }

  /** The event task about to revoke belongs neither to the generation in the map nor to a spent one. */
  lemma SafeFromRevoke(s: State, conn: Conn, g: GenId, h: GenId)
    requires MapOk(s) && MapsTo(s, conn, g) && Safe(s, conn, g) && AtEvent(s, h, Revoking)
    ensures s.gens[h].conn != conn
  {
    assert MappedOk(s.gens[g]);
  }

  lemma SafeStepKeepsCredential(s: State, a: Action, conn: Conn, g: GenId, u: string, now: nat, expires: nat)
    requires MapOk(s) && Enabled(s, a) && MapsTo(s, conn, g) && Safe(s, conn, g)
    requires HasCredential(s, conn, u, expires) && Spares(a, conn, u, now, expires)
    ensures HasCredential(Apply(s, a), conn, u, expires)
  {
    TableSteps(s, a);
    CredentialLostExactly(s, a, u);
    if a.EventRevoke? {
      SafeFromRevoke(s, conn, g, a.g);
    }
  }

  lemma SafeStep(s: State, a: Action, s': State, conn: Conn, g: GenId, u: string, now: nat, expires: nat)
    requires Reached(s) && Goes(s, a, s') && MapsTo(s, conn, g) && Spares(a, conn, u, now, expires)
    requires Safe(s, conn, g) && HasCredential(s, conn, u, expires)
    ensures Reached(s') && Safe(s', conn, g) && HasCredential(s', conn, u, expires)
  {
    ReachedInv(s);
    ReachedNext(s, a, s');
    StepKeepsSafe(s, a, conn, g);
    SafeStepKeepsCredential(s, a, conn, g, u, now, expires);
  }

  /** In a safe state nothing but the handler and the clock can take the credential, however long it goes on. */
  lemma {:induction false} SafeKeepsCredential(
    path: seq<State>, acts: seq<Action>, conn: Conn, g: GenId, u: string, now: nat, expires: nat, k: nat)
    requires Undisturbed(path, acts, conn, g, u, now, expires) && k < |path|
    requires Reached(path[0]) && Safe(path[0], conn, g) && HasCredential(path[0], conn, u, expires)
    ensures Reached(path[k]) && Safe(path[k], conn, g) && HasCredential(path[k], conn, u, expires)
  {
    if k > 0 {
      SafeKeepsCredential(path, acts, conn, g, u, now, expires, k - 1);
      assert QuietAt(path, acts, k - 1, conn, g, u, now, expires);
      SafeStep(path[k - 1], acts[k - 1], path[k], conn, g, u, now, expires);
    }
  }

  /** From here the credential can be lost although nothing the connection does asks for it. */
  ghost predicate CanLose(s: State, conn: Conn, g: GenId, u: string, now: nat, expires: nat) {
    exists path: seq<State>, acts: seq<Action> ::
      Undisturbed(path, acts, conn, g, u, now, expires) && path[0] == s && u !in path[|acts|].table
  }

  lemma QuietLater(s: State, a: Action, path: seq<State>, acts: seq<Action>, k: nat,
                   conn: Conn, g: GenId, u: string, now: nat, expires: nat)
    requires |path| == |acts| + 1 && k < |acts| && QuietAt(path, acts, k, conn, g, u, now, expires)
    ensures QuietAt([s] + path, [a] + acts, k + 1, conn, g, u, now, expires)
  {
  }

  lemma CanLoseEarlier(s: State, a: Action, s': State, conn: Conn, g: GenId, u: string, now: nat, expires: nat)
    requires Goes(s, a, s') && MapsTo(s, conn, g) && Spares(a, conn, u, now, expires)
    requires CanLose(s', conn, g, u, now, expires)
    ensures CanLose(s, conn, g, u, now, expires)
  {
    var path: seq<State>, acts: seq<Action> :|
      Undisturbed(path, acts, conn, g, u, now, expires) && path[0] == s' && u !in path[|acts|].table;
    var path', acts' := [s] + path, [a] + acts;
    forall k | 0 <= k < |acts'|
      ensures QuietAt(path', acts', k, conn, g, u, now, expires)
    {
      if k > 0 {
        QuietLater(s, a, path, acts, k - 1, conn, g, u, now, expires);
      }
    }
    assert path'[|acts'|] == path[|acts|];
    assert Undisturbed(path', acts', conn, g, u, now, expires);
  }

  lemma CanLoseNow(s: State, conn: Conn, g: GenId, u: string, now: nat, expires: nat)
    requires MapsTo(s, conn, g) && u !in s.table
    ensures CanLose(s, conn, g, u, now, expires)
  {
    assert Undisturbed([s], [], conn, g, u, now, expires);
  }

  // ---------------------------------------------------------------- an older event task on its way to the revoke

  /** Generation `h` is not the one in the map, and the credential is still there. */
  ghost predicate Older(s: State, conn: Conn, g: GenId, h: GenId, u: string, now: nat, expires: nat) {
    && Reached(s) && MapsTo(s, conn, g) && h in s.gens && h != g && s.gens[h].conn == conn
    && HasCredential(s, conn, u, expires) && now < expires
  }

  /** A step that changes neither the map nor the credential leaves it so. */
  lemma StaysOlder(s: State, a: Action, s': State, conn: Conn, g: GenId, h: GenId, u: string, now: nat, expires: nat)
    requires Older(s, conn, g, h, u, now, expires) && Goes(s, a, s')
    requires s'.sessions == s.sessions && s'.table == s.table && h in s'.gens && s'.gens[h].conn == conn
    ensures Older(s', conn, g, h, u, now, expires)
  {
    ReachedNext(s, a, s');
  }

  lemma FromRevoking(s: State, conn: Conn, g: GenId, h: GenId, u: string, now: nat, expires: nat)
    requires Older(s, conn, g, h, u, now, expires) && s.gens[h].events == Revoking
    ensures CanLose(s, conn, g, u, now, expires)
  {
    var s' := FinishRevoke(s, h);
    CanLoseNow(s', conn, g, u, now, expires);
    CanLoseEarlier(s, EventRevoke(h), s', conn, g, u, now, expires);
  }

  lemma FromRemoving(s: State, conn: Conn, g: GenId, h: GenId, u: string, now: nat, expires: nat)
    requires Older(s, conn, g, h, u, now, expires) && CanRemove(s, h)
    ensures CanLose(s, conn, g, u, now, expires)
  {
    var s' := FinishRemove(s, h);
    StaysOlder(s, EventRemove(h), s', conn, g, h, u, now, expires);
    FromRevoking(s', conn, g, h, u, now, expires);
    CanLoseEarlier(s, EventRemove(h), s', conn, g, u, now, expires);
  }

  lemma FromClosingPeer(s: State, conn: Conn, g: GenId, h: GenId, u: string, now: nat, expires: nat)
    requires Older(s, conn, g, h, u, now, expires) && CanFinish(s, h)
    ensures CanLose(s, conn, g, u, now, expires)
  {
    var s' := FinishRelease(s, h);
    StaysOlder(s, EventRelease(h), s', conn, g, h, u, now, expires);
    FromRemoving(s', conn, g, h, u, now, expires);
    CanLoseEarlier(s, EventRelease(h), s', conn, g, u, now, expires);
  }

  /** A step of the older session that changes nothing else. */
  lemma AfterOwn(s: State, conn: Conn, g: GenId, h: GenId, u: string, now: nat, expires: nat, o: OwnStep) returns (s': State)
    requires Older(s, conn, g, h, u, now, expires) && OwnEnabled(s.gens[h], o)
    ensures Goes(s, Own(h, o), s') && Older(s', conn, g, h, u, now, expires) && s'.gens[h] == OwnResult(s.gens[h], o)
  {
    s' := SetGen(s, h, OwnResult(s.gens[h], o));
    StaysOlder(s, Own(h, o), s', conn, g, h, u, now, expires);
  }

  predicate FinishingAt(s: State, h: GenId, td: Teardown) {
    h in s.gens && s.gens[h].events.Finishing? && s.gens[h].events.td == td
  }

  lemma FromStoppingBridge(s: State, conn: Conn, g: GenId, h: GenId, u: string, now: nat, expires: nat)
    requires Older(s, conn, g, h, u, now, expires) && FinishingAt(s, h, StoppingBridge)
    ensures CanLose(s, conn, g, u, now, expires)
  {
    var s' := AfterOwn(s, conn, g, h, u, now, expires, FinishVoice);
    FromClosingPeer(s', conn, g, h, u, now, expires);
    CanLoseEarlier(s, Own(h, FinishVoice), s', conn, g, u, now, expires);
  }

  lemma FromUnlocked(s: State, conn: Conn, g: GenId, h: GenId, u: string, now: nat, expires: nat)
    requires Older(s, conn, g, h, u, now, expires) && FinishingAt(s, h, AwaitLock) && s.gens[h].lock.None?
    ensures CanLose(s, conn, g, u, now, expires)
  {
    var s' := AfterOwn(s, conn, g, h, u, now, expires, LockForFinish);
    if s.gens[h].slot {
      FromStoppingBridge(s', conn, g, h, u, now, expires);
    } else {
      FromRemoving(s', conn, g, h, u, now, expires);
    }
    CanLoseEarlier(s, Own(h, LockForFinish), s', conn, g, u, now, expires);
  }

  /** A caller is tearing the older session down; it finishes first. */
  lemma FromCloserEnding(s: State, conn: Conn, g: GenId, h: GenId, u: string, now: nat, expires: nat, t: TaskId)
    requires Older(s, conn, g, h, u, now, expires) && FinishingAt(s, h, AwaitLock)
    requires AtTask(s, t, ClosingPeer) && s.tasks[t].g == h
    ensures CanLose(s, conn, g, u, now, expires)
  {
    var s' := EndClose(s, t);
    StaysOlder(s, CloseEnd(t), s', conn, g, h, u, now, expires);
    FromUnlocked(s', conn, g, h, u, now, expires);
    CanLoseEarlier(s, CloseEnd(t), s', conn, g, u, now, expires);
  }

  lemma FromCloser(s: State, conn: Conn, g: GenId, h: GenId, u: string, now: nat, expires: nat, t: TaskId)
    requires Older(s, conn, g, h, u, now, expires) && FinishingAt(s, h, AwaitLock)
    requires AtTask(s, t, StoppingBridge) && s.tasks[t].g == h
    ensures CanLose(s, conn, g, u, now, expires)
  {
    var s' := TakeVoice(s, t);
    StaysOlder(s, CloseVoice(t), s', conn, g, h, u, now, expires);
    FromCloserEnding(s', conn, g, h, u, now, expires, t);
    CanLoseEarlier(s, CloseVoice(t), s', conn, g, u, now, expires);
  }

  /** Who may hold the lock of a session whose event task does not. */
  lemma LockHolder(s: State, h: GenId)
    requires Reached(s) && h in s.gens && (s.gens[h].events.Finishing? ==> s.gens[h].events.td == AwaitLock)
    ensures s.gens[h].lock.Some? ==>
              && s.gens[h].closed && s.gens[h].lock.value.Caller?
              && var t := s.gens[h].lock.value.t;
              && (AtTask(s, t, StoppingBridge) || AtTask(s, t, ClosingPeer)) && s.tasks[t].g == h
  {
    ReachedInv(s);
    assert SessionOk(s.gens[h]) && LockOk(s, h, s.gens[h].lock);
  }

  lemma FromAwaitLock(s: State, conn: Conn, g: GenId, h: GenId, u: string, now: nat, expires: nat)
    requires Older(s, conn, g, h, u, now, expires) && FinishingAt(s, h, AwaitLock)
    ensures CanLose(s, conn, g, u, now, expires)
  {
    LockHolder(s, h);
    if s.gens[h].lock.None? {
      FromUnlocked(s, conn, g, h, u, now, expires);
    } else if s.tasks[s.gens[h].lock.value.t].td == StoppingBridge {
      FromCloser(s, conn, g, h, u, now, expires, s.gens[h].lock.value.t);
    } else {
      FromCloserEnding(s, conn, g, h, u, now, expires, s.gens[h].lock.value.t);
    }
  }

  lemma FromRunning(s: State, conn: Conn, g: GenId, h: GenId, u: string, now: nat, expires: nat)
    requires Older(s, conn, g, h, u, now, expires) && s.gens[h].events == Running
    ensures CanLose(s, conn, g, u, now, expires)
  {
    var s' := AfterOwn(s, conn, g, h, u, now, expires, Break(false));
    FromAwaitLock(s', conn, g, h, u, now, expires);
    CanLoseEarlier(s, Own(h, Break(false)), s', conn, g, u, now, expires);
  }

  /** It is about to issue a credential of its own; that leaves the other one alone. */
  lemma FromIssuing(s: State, conn: Conn, g: GenId, h: GenId, u: string, now: nat, expires: nat)
    requires Older(s, conn, g, h, u, now, expires) && s.gens[h].events == Issuing
    ensures CanLose(s, conn, g, u, now, expires)
  {
    var minted := TC.Mint("", 300, conn, u + "x", "", now);
    var s' := IssueForEvent(s, h, now, minted);
    CredentialLostExactly(s, EventIssue(h, now, minted), u);
    assert s'.table == TableAfter(s, EventIssue(h, now, minted));
    ReachedNext(s, EventIssue(h, now, minted), s');
    FromRunning(s', conn, g, h, u, now, expires);
    CanLoseEarlier(s, EventIssue(h, now, minted), s', conn, g, u, now, expires);
  }

  /** It was taken out of the map before it started, but nobody has closed it. */
  lemma FromStarting(s: State, conn: Conn, g: GenId, h: GenId, u: string, now: nat, expires: nat)
    requires Older(s, conn, g, h, u, now, expires) && s.gens[h].events == Starting && !s.gens[h].closed
    ensures CanLose(s, conn, g, u, now, expires)
  {
    LockHolder(s, h);
    var s' := AfterOwn(s, conn, g, h, u, now, expires, Start);
    FromRunning(s', conn, g, h, u, now, expires);
    CanLoseEarlier(s, Own(h, Start), s', conn, g, u, now, expires);
  }

  lemma UnspentCanLose(s: State, conn: Conn, g: GenId, h: GenId, u: string, now: nat, expires: nat)
    requires Older(s, conn, g, h, u, now, expires) && !Spent(s.gens[h])
    ensures CanLose(s, conn, g, u, now, expires)
  {
    match s.gens[h].events {
      case Starting => FromStarting(s, conn, g, h, u, now, expires);
      case Running => FromRunning(s, conn, g, h, u, now, expires);
      case Issuing => FromIssuing(s, conn, g, h, u, now, expires);
      case Finishing(td, _) =>
        match td {
          case AwaitLock => FromAwaitLock(s, conn, g, h, u, now, expires);
          case StoppingBridge => FromStoppingBridge(s, conn, g, h, u, now, expires);
          case ClosingPeer => FromClosingPeer(s, conn, g, h, u, now, expires);
        }
      case Removing(_) => FromRemoving(s, conn, g, h, u, now, expires);
      case Revoking => FromRevoking(s, conn, g, h, u, now, expires);
    }
  }

  /**
   A live credential of a connection whose generation `g` is in the map survives every
   continuation in which `g` stays there, the handler does not revoke and the credential does
   not expire, exactly if every other generation of the connection is spent: its event task
   was never spawned, has ended, or has yet to start and will find the session closed.
   */
  lemma ReconnectSafeExactly(s: State, conn: Conn, g: GenId, u: string, now: nat)
    requires Reached(s) && MapsTo(s, conn, g)
    requires u in s.table && s.table[u].session == conn && now < s.table[u].expiresAt
    ensures Safe(s, conn, g) <==>
              forall path: seq<State>, acts: seq<Action> |
                Undisturbed(path, acts, conn, g, u, now, s.table[u].expiresAt) && path[0] == s ::
                u in path[|acts|].table
  {
    var expires := s.table[u].expiresAt;
    if Safe(s, conn, g) {
      forall path: seq<State>, acts: seq<Action> | Undisturbed(path, acts, conn, g, u, now, expires) && path[0] == s
        ensures u in path[|acts|].table
      {
        SafeKeepsCredential(path, acts, conn, g, u, now, expires, |acts|);
      }
    } else {
      var h :| h in s.gens && h != g && s.gens[h].conn == conn && !Spent(s.gens[h]);
      UnspentCanLose(s, conn, g, h, u, now, expires);
    }
  }
}
