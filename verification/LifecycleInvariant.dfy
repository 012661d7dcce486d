/** The inductive invariant behind the lifecycle theorems, one conjunct per concern. */
module LifecycleInvariant {
  import opened Common
  import opened Lifecycle
  import TC = TurnCredentials

  /** Facts about one session object that do not depend on anything else. */
  ghost predicate SessionOk(r: Session) {
    && (r.voicePc == Pending ==> r.handle)
    && (r.closed ==> !r.handle)
    && (!r.slot ==> r.closed && !r.voice && !r.bridge && r.lock == None)
    && (r.events in {Unspawned, Starting} ==> r.voicePc == NoVoice && !r.handle && !r.voice && !r.bridge)
    && (r.lock == Some(EventTask) <==> r.events.Finishing? && r.events.td != AwaitLock)
    && (r.events.Finishing? && r.events.td != AwaitLock ==> r.closed && r.slot && !r.bridge)
    && (r.events.Finishing? && r.events.td == ClosingPeer ==> !r.voice)
    && (r.events.Removing? || r.events == Revoking ==> !r.slot)
  }

  /** A mapped session has an event task that has yet to take it out of the map. */
  ghost predicate MappedOk(r: Session) {
    && r.events != Unspawned && r.events != Revoking && r.events != Done
    && (r.events == Starting ==> !r.closed)
  }

  ghost predicate MapOk(s: State) {
    forall c | c in s.sessions ::
      s.sessions[c] in s.gens && s.gens[s.sessions[c]].conn == c && MappedOk(s.gens[s.sessions[c]])
  }

  ghost predicate LockOk(s: State, g: GenId, lock: Option<Holder>) {
    lock.Some? && lock.value.Caller? ==>
      var t := lock.value.t;
      t in s.tasks && s.tasks[t].Closing? && s.tasks[t].g == g && s.tasks[t].td != AwaitLock
  }

  ghost predicate GensOk(s: State) {
    forall g | g in s.gens ::
      g < s.nextGen && s.gens[g].builder < s.nextTask && SessionOk(s.gens[g]) && LockOk(s, g, s.gens[g].lock)
  }

  ghost predicate TaskOk(s: State, t: TaskId, k: Task) {
    match k
    case Checked(_) => true
    case Holding(_) => true
    case Inserting(g) =>
      && g in s.gens && s.gens[g].events == Unspawned && s.gens[g].builder == t
      && s.gens[g].slot && !s.gens[g].closed && s.gens[g].lock == None
    case Closing(g, td) =>
      && g in s.gens
      && (if s.gens[g].events == Unspawned then s.gens[g].builder == t else !InMap(s, g))
      && (td != AwaitLock <==> s.gens[g].lock == Some(Caller(t)))
      && (td != AwaitLock ==> s.gens[g].closed && s.gens[g].slot && !s.gens[g].bridge)
      && (td == ClosingPeer ==> !s.gens[g].voice)
    case Using(g) => g in s.gens
  }

  ghost predicate TasksOk(s: State) {
    forall t | t in s.tasks :: t < s.nextTask && TaskOk(s, t, s.tasks[t])
  }

  /** Permits: free ones, those held by a connect, those in a session's slot. */
  ghost function HeldByConnects(s: State): set<TaskId> {
    set t | t in s.tasks && s.tasks[t].Holding?
  }

  ghost function HeldBySessions(s: State): set<GenId> {
    set g | g in s.gens && s.gens[g].slot
  }

  ghost predicate Conserved(s: State) {
    s.free + |HeldByConnects(s)| + |HeldBySessions(s)| == s.capacity
  }

  ghost predicate NoRepeats(log: seq<GenId>) {
    forall i, j | 0 <= i < j < |log| :: log[i] != log[j]
  }

  ghost predicate ReleasedOk(s: State) {
    && NoRepeats(s.released)
    && forall g: GenId :: g in s.released <==> g < s.nextGen && (g in s.gens ==> !s.gens[g].slot)
  }

  ghost predicate ErrorsOk(s: State) {
    && NoRepeats(s.errors)
    && forall g | g in s.errors ::
         g < s.nextGen && g in s.released && !InMap(s, g)
         && (g in s.gens ==> s.gens[g].events == Revoking || s.gens[g].events == Done)
  }

  /** Somebody is still going to revoke this connection's credentials. */
  ghost predicate RevokerPending(s: State, conn: Conn) {
    || HandlerActive(s, conn)
    || exists g :: g in s.gens && s.gens[g].conn == conn && WillRevoke(s.gens[g].events)
  }

  predicate HandlerActive(s: State, conn: Conn) {
    conn in s.handlers && s.handlers[conn] != Gone
  }

  ghost predicate WillRevoke(pc: EventPc) {
    pc != Unspawned && pc != Starting && pc != Done
  }

  ghost predicate CredentialsOk(s: State) {
    forall u | u in s.table :: RevokerPending(s, s.table[u].session)
  }

  ghost predicate Inv(s: State) {
    MapOk(s) && GensOk(s) && TasksOk(s) && Conserved(s) && ReleasedOk(s) && ErrorsOk(s) && CredentialsOk(s)
  }

  lemma InitInv(capacity: nat)
    ensures Inv(Init(capacity))
  {
    assert HeldByConnects(Init(capacity)) == {} && HeldBySessions(Init(capacity)) == {};
  }

  // ---------------------------------------------------------------- what a step must keep, part by part

  lemma CredentialsKept(s: State, s': State)
    requires CredentialsOk(s) && s'.table == s.table && s'.handlers == s.handlers
    requires forall g | g in s.gens && WillRevoke(s.gens[g].events) ::
               g in s'.gens && s'.gens[g].conn == s.gens[g].conn && WillRevoke(s'.gens[g].events)
    ensures CredentialsOk(s')
  {
    forall u | u in s'.table
      ensures RevokerPending(s', s'.table[u].session)
    {
      var conn := s.table[u].session;
      assert RevokerPending(s, conn);
      if g :| g in s.gens && s.gens[g].conn == conn && WillRevoke(s.gens[g].events) {
        assert g in s'.gens && s'.gens[g].conn == conn && WillRevoke(s'.gens[g].events);
      }
    }
  }

  lemma ErrorsKept(s: State, s': State)
    requires ErrorsOk(s) && s'.errors == s.errors && s.nextGen <= s'.nextGen
    requires forall g | g in s.released :: g in s'.released
    requires forall g | g in s.errors ::
               !InMap(s', g) && (g in s'.gens ==> g in s.gens && s'.gens[g].events == s.gens[g].events)
    ensures ErrorsOk(s')
  {
  }

  lemma CountsKept(s: State, s': State)
    requires Conserved(s) && ReleasedOk(s)
    requires s'.free == s.free && s'.capacity == s.capacity && s'.released == s.released && s'.nextGen == s.nextGen
    requires forall g | g in s.gens || g in s'.gens :: g in s.gens && g in s'.gens && s.gens[g].slot == s'.gens[g].slot
    requires forall t :: t in s.tasks && s.tasks[t].Holding? <==> t in s'.tasks && s'.tasks[t].Holding?
    ensures Conserved(s') && ReleasedOk(s')
  {
    assert HeldBySessions(s') == HeldBySessions(s);
    assert HeldByConnects(s') == HeldByConnects(s);
  }

  // ---------------------------------------------------------------- changes to one session

  /** The new record `q` of a spawned session may replace `r` without disturbing anyone else. */
  ghost predicate Harmless(s: State, g: GenId, q: Session) {
    && g in s.gens
    && var r := s.gens[g];
    && q.conn == r.conn && q.builder == r.builder && q.slot == r.slot
    && r.events != Unspawned && q.events != Unspawned
    && SessionOk(q)
    && (InMap(s, g) ==> MappedOk(q))
    && (q.lock == r.lock || (q.lock in {None, Some(EventTask)} && r.lock in {None, Some(EventTask)}))
    && (r.lock.Some? && r.lock.value.Caller? ==> (r.closed ==> q.closed) && (q.bridge ==> r.bridge) && (q.voice ==> r.voice))
    && (r.events == Revoking || r.events == Done ==> q.events == Revoking || q.events == Done)
    && (WillRevoke(r.events) ==> WillRevoke(q.events) || forall u | u in s.table :: s.table[u].session != r.conn)
  }

  lemma HarmlessKeepsTasks(s: State, g: GenId, q: Session)
    requires Inv(s) && Harmless(s, g, q)
    ensures TasksOk(SetGen(s, g, q))
  {
    var s' := SetGen(s, g, q);
    forall t | t in s'.tasks
      ensures TaskOk(s', t, s'.tasks[t])
    {
      assert TaskOk(s, t, s.tasks[t]);
    }
  }

  lemma HarmlessKeepsCredentials(s: State, g: GenId, q: Session)
    requires Inv(s) && Harmless(s, g, q)
    ensures CredentialsOk(SetGen(s, g, q))
  {
    var s' := SetGen(s, g, q);
    forall u | u in s'.table
      ensures RevokerPending(s', s'.table[u].session)
    {
      var conn := s.table[u].session;
      if !HandlerActive(s, conn) {
        var h :| h in s.gens && s.gens[h].conn == conn && WillRevoke(s.gens[h].events);
        assert h in s'.gens && s'.gens[h].conn == conn && WillRevoke(s'.gens[h].events);
      }
    }
  }

  lemma HarmlessKeepsGens(s: State, g: GenId, q: Session)
    requires Inv(s) && Harmless(s, g, q)
    ensures MapOk(SetGen(s, g, q)) && GensOk(SetGen(s, g, q)) && ErrorsOk(SetGen(s, g, q))
  {
  }

  lemma HarmlessKeepsInv(s: State, g: GenId, q: Session)
    requires Inv(s) && Harmless(s, g, q)
    ensures Inv(SetGen(s, g, q))
  {
    HarmlessKeepsTasks(s, g, q);
    HarmlessKeepsCredentials(s, g, q);
    HarmlessKeepsGens(s, g, q);
    CountsKept(s, SetGen(s, g, q));
  }

  // ---------------------------------------------------------------- credentials, handlers, map

  /** Only the credential table, the handlers or the stopping flag differ. */
  ghost predicate SameCore(s: State, s': State) {
    s'.(table := s.table, handlers := s.handlers, stopping := s.stopping) == s
  }

  ghost predicate Core(s: State) {
    MapOk(s) && GensOk(s) && TasksOk(s) && Conserved(s) && ReleasedOk(s) && ErrorsOk(s)
  }

  lemma SameCoreKeepsCore(s: State, s': State)
    requires Inv(s) && SameCore(s, s')
    ensures Core(s')
  {
    assert HeldBySessions(s') == HeldBySessions(s);
    assert HeldByConnects(s') == HeldByConnects(s);
    forall t | t in s'.tasks
      ensures TaskOk(s', t, s'.tasks[t])
    {
      assert TaskOk(s, t, s.tasks[t]);
    }
  }

  lemma IssueKeepsInv(s: State, minted: TC.Credential, now: nat)
    requires Inv(s) && RevokerPending(s, minted.session)
    ensures Inv(s.(table := TC.IssueTable(s.table, minted, now)))
  {
    var s' := s.(table := TC.IssueTable(s.table, minted, now));
    SameCoreKeepsCore(s, s');
    forall u | u in s'.table
      ensures RevokerPending(s', s'.table[u].session)
    {
      assert s'.table[u] == minted || (u in s.table && s'.table[u] == s.table[u]);
      assert RevokerPending(s, s'.table[u].session);
    }
  }

  lemma RevokeKeepsInv(s: State, conn: Conn)
    requires Inv(s)
    ensures Inv(s.(table := TC.RevokeTable(s.table, conn)))
  {
    var s' := s.(table := TC.RevokeTable(s.table, conn));
    SameCoreKeepsCore(s, s');
    forall u | u in s'.table
      ensures RevokerPending(s', s'.table[u].session)
    {
      assert RevokerPending(s, s.table[u].session);
    }
  }

  lemma HandlerKeepsInv(s: State, conn: Conn, pc: HandlerPc)
    requires Inv(s)
    requires pc == Gone ==> forall u | u in s.table :: s.table[u].session != conn
    ensures Inv(SetHandler(s, conn, pc))
  {
    var s' := SetHandler(s, conn, pc);
    SameCoreKeepsCore(s, s');
    forall u | u in s'.table
      ensures RevokerPending(s', s'.table[u].session)
    {
      assert RevokerPending(s, s.table[u].session);
    }
  }

  lemma UnmapKeepsInv(s: State, conn: Conn)
    requires Inv(s)
    ensures Inv(s.(sessions := s.sessions - {conn}))
  {
    var s' := s.(sessions := s.sessions - {conn});
    assert HeldBySessions(s') == HeldBySessions(s);
    assert HeldByConnects(s') == HeldByConnects(s);
    forall t | t in s'.tasks
      ensures TaskOk(s', t, s'.tasks[t])
    {
      assert TaskOk(s, t, s.tasks[t]);
    }
    forall u | u in s'.table
      ensures RevokerPending(s', s'.table[u].session)
    {
      assert RevokerPending(s, s.table[u].session);
    }
  }

  // ---------------------------------------------------------------- tasks that come and go

  /** Everything but the table of tasks is the same, and task `t` is the only one that may differ. */
  ghost predicate OtherTasksSame(s: State, s': State, t: TaskId) {
    && s'.(tasks := s.tasks, nextTask := s.nextTask, free := s.free) == s
    && s.nextTask <= s'.nextTask
    && forall x | x != t :: (x in s.tasks <==> x in s'.tasks) && (x in s.tasks ==> s.tasks[x] == s'.tasks[x])
  }

  /** Nothing depends on `t` being where it is: it holds no session lock. */
  ghost predicate HoldsNoLock(s: State, t: TaskId) {
    t in s.tasks && s.tasks[t].Closing? ==> s.tasks[t].td == AwaitLock
  }

  lemma TaskChangeKeepsInv(s: State, s': State, t: TaskId)
    requires Inv(s) && OtherTasksSame(s, s', t) && HoldsNoLock(s, t)
    requires t in s'.tasks ==> t < s'.nextTask && TaskOk(s', t, s'.tasks[t])
    requires Conserved(s')
    ensures Inv(s')
  {
    forall x | x in s'.tasks
      ensures x < s'.nextTask && TaskOk(s', x, s'.tasks[x])
    {
      if x != t {
        assert TaskOk(s, x, s.tasks[x]);
      }
    }
    forall g | g in s'.gens
      ensures LockOk(s', g, s'.gens[g].lock)
    {
      assert LockOk(s, g, s.gens[g].lock);
    }
    forall u | u in s'.table
      ensures RevokerPending(s', s'.table[u].session)
    {
      assert RevokerPending(s, s.table[u].session);
    }
  }

  lemma NewTaskKeepsInv(s: State, k: Task)
    requires Inv(s) && !k.Holding? && TaskOk(s, s.nextTask, k)
    ensures Inv(NewTask(s, k))
  {
    var s' := NewTask(s, k);
    assert s.nextTask !in s.tasks;
    assert HeldBySessions(s') == HeldBySessions(s);
    assert HeldByConnects(s') == HeldByConnects(s);
    TaskChangeKeepsInv(s, s', s.nextTask);
  }

  lemma EndTaskKeepsInv(s: State, t: TaskId)
    requires Inv(s) && t in s.tasks && !s.tasks[t].Holding? && HoldsNoLock(s, t)
    ensures Inv(EndTask(s, t))
  {
    var s' := EndTask(s, t);
    assert HeldBySessions(s') == HeldBySessions(s);
    assert HeldByConnects(s') == HeldByConnects(s);
    TaskChangeKeepsInv(s, s', t);
  }

  lemma AcquireKeepsInv(s: State, t: TaskId)
    requires Inv(s) && CanAcquire(s, t)
    ensures Inv(Acquire(s, t))
  {
    var s' := Acquire(s, t);
    assert HeldBySessions(s') == HeldBySessions(s);
    assert HeldByConnects(s') == HeldByConnects(s) + {t};
    TaskChangeKeepsInv(s, s', t);
  }

  lemma AbandonKeepsInv(s: State, t: TaskId)
    requires Inv(s) && t in s.tasks && (s.tasks[t].Checked? || s.tasks[t].Holding?)
    ensures Inv(Abandon(s, t))
  {
    var s' := Abandon(s, t);
    assert HeldBySessions(s') == HeldBySessions(s);
    assert HeldByConnects(s') == HeldByConnects(s) - {t};
    TaskChangeKeepsInv(s, s', t);
  }

  lemma DisconnectKeepsInv(s: State, conn: Conn)
    requires Inv(s)
    ensures Inv(BeginDisconnect(s, conn))
  {
    if conn in s.sessions {
      UnmapKeepsInv(s, conn);
      NewTaskKeepsInv(s.(sessions := s.sessions - {conn}), Closing(s.sessions[conn], AwaitLock));
    }
  }

  // ---------------------------------------------------------------- a caller tearing a session down

  /** Task `t` moved on inside its teardown of `g`; nobody else did anything. */
  ghost predicate CallerMoved(s: State, s': State, t: TaskId, g: GenId) {
    && t in s.tasks && s.tasks[t].Closing? && s.tasks[t].g == g && g in s.gens && g in s'.gens
    && s'.(tasks := s.tasks, gens := s.gens, free := s.free, released := s.released) == s
    && s'.gens == s.gens[g := s'.gens[g]]
    && (forall x | x != t :: (x in s.tasks <==> x in s'.tasks) && (x in s.tasks ==> s.tasks[x] == s'.tasks[x]))
    && var r, q := s.gens[g], s'.gens[g];
    && q.conn == r.conn && q.builder == r.builder && q.events == r.events && SessionOk(q)
    && r.lock in {None, Some(Caller(t))} && q.lock in {None, Some(Caller(t))}
    && (t in s'.tasks ==> TaskOk(s', t, s'.tasks[t]))
    && (q.lock == Some(Caller(t)) ==> t in s'.tasks && s'.tasks[t].Closing? && s'.tasks[t].g == g && s'.tasks[t].td != AwaitLock)
  }

  lemma CallerMoveKeepsTasks(s: State, s': State, t: TaskId, g: GenId)
    requires Inv(s) && CallerMoved(s, s', t, g)
    ensures TasksOk(s')
  {
    assert TaskOk(s, t, s.tasks[t]);
    forall x | x in s'.tasks
      ensures x < s'.nextTask && TaskOk(s', x, s'.tasks[x])
    {
      assert TaskOk(s, x, s.tasks[x]);
    }
  }

  lemma CallerMoveKeepsGens(s: State, s': State, t: TaskId, g: GenId)
    requires Inv(s) && CallerMoved(s, s', t, g)
    ensures MapOk(s') && GensOk(s')
  {
    assert TaskOk(s, t, s.tasks[t]);
    assert !InMap(s, g);
    forall h | h in s'.gens
      ensures LockOk(s', h, s'.gens[h].lock)
    {
      assert LockOk(s, h, s.gens[h].lock);
    }
  }

  lemma CallerMoveKeepsInv(s: State, s': State, t: TaskId, g: GenId)
    requires Inv(s) && CallerMoved(s, s', t, g) && Conserved(s') && ReleasedOk(s')
    requires forall h | h in s.released :: h in s'.released
    ensures Inv(s')
  {
    CallerMoveKeepsTasks(s, s', t, g);
    CallerMoveKeepsGens(s, s', t, g);
    CredentialsKept(s, s');
    ErrorsKept(s, s');
  }

  lemma CloseLockMoves(s: State, t: TaskId)
    requires Inv(s) && AtTask(s, t, AwaitLock) && s.gens[s.tasks[t].g].lock == None && s.gens[s.tasks[t].g].slot
    ensures CallerMoved(s, Lock(s, t), t, s.tasks[t].g)
  {
    assert TaskOk(s, t, s.tasks[t]);
    assert SessionOk(s.gens[s.tasks[t].g]);
  }

  lemma CloseLockKeepsInv(s: State, t: TaskId)
    requires Inv(s) && AtTask(s, t, AwaitLock) && s.gens[s.tasks[t].g].lock == None
    ensures Inv(Lock(s, t))
  {
    var s', g := Lock(s, t), s.tasks[t].g;
    if s.gens[g].slot {
      CloseLockMoves(s, t);
      CountsKept(s, s');
      CallerMoveKeepsInv(s, s', t, g);
    } else {
      EndTaskKeepsInv(s, t);
    }
  }

  lemma CloseVoiceMoves(s: State, t: TaskId)
    requires Inv(s) && AtTask(s, t, StoppingBridge)
    ensures CallerMoved(s, TakeVoice(s, t), t, s.tasks[t].g)
  {
    assert TaskOk(s, t, s.tasks[t]);
    assert SessionOk(s.gens[s.tasks[t].g]);
  }

  lemma CloseVoiceKeepsInv(s: State, t: TaskId)
    requires Inv(s) && AtTask(s, t, StoppingBridge)
    ensures Inv(TakeVoice(s, t))
  {
    var s', g := TakeVoice(s, t), s.tasks[t].g;
    CloseVoiceMoves(s, t);
    CountsKept(s, s');
    CallerMoveKeepsInv(s, s', t, g);
  }

  lemma CloseCancelMoves(s: State, t: TaskId)
    requires Inv(s) && t in s.tasks && s.tasks[t].Closing? && s.tasks[t].g in s.gens && s.tasks[t].td != AwaitLock
    ensures CallerMoved(s, CancelClose(s, t), t, s.tasks[t].g)
  {
    assert TaskOk(s, t, s.tasks[t]);
    assert SessionOk(s.gens[s.tasks[t].g]);
  }

  lemma CloseCancelKeepsInv(s: State, t: TaskId)
    requires Inv(s) && t in s.tasks && s.tasks[t].Closing? && s.tasks[t].g in s.gens
    ensures Inv(CancelClose(s, t))
  {
    var s', g := CancelClose(s, t), s.tasks[t].g;
    if s.tasks[t].td == AwaitLock {
      EndTaskKeepsInv(s, t);
    } else {
      CloseCancelMoves(s, t);
      CountsKept(s, s');
      CallerMoveKeepsInv(s, s', t, g);
    }
  }

  /** A slot that was set is given back: the permit count and the release log move together. */
  lemma GiveKeepsLog(s: State, s': State, g: GenId)
    requires Conserved(s) && ReleasedOk(s) && GensOk(s) && g in s.gens && s.gens[g].slot
    requires s'.nextGen == s.nextGen && s'.released == s.released + [g] && s'.free == s.free + 1 && s'.capacity == s.capacity
    requires HeldByConnects(s') == HeldByConnects(s)
    requires forall h | h != g :: (h in s.gens <==> h in s'.gens) && (h in s.gens ==> s'.gens[h].slot == s.gens[h].slot)
    requires g in s'.gens ==> !s'.gens[g].slot
    ensures Conserved(s') && ReleasedOk(s')
    ensures forall h | h in s.released :: h in s'.released
  {
    assert HeldBySessions(s') == HeldBySessions(s) - {g};
    assert g in HeldBySessions(s);
    assert g !in s.released;
  }

  lemma CloseEndMoves(s: State, t: TaskId)
    requires Inv(s) && AtTask(s, t, ClosingPeer)
    ensures CallerMoved(s, EndClose(s, t), t, s.tasks[t].g)
  {
    assert TaskOk(s, t, s.tasks[t]);
    assert SessionOk(s.gens[s.tasks[t].g]);
  }

  lemma CloseEndKeepsInv(s: State, t: TaskId)
    requires Inv(s) && AtTask(s, t, ClosingPeer)
    ensures Inv(EndClose(s, t))
  {
    var s', g := EndClose(s, t), s.tasks[t].g;
    assert TaskOk(s, t, s.tasks[t]);
    assert HeldByConnects(s') == HeldByConnects(s);
    GiveKeepsLog(s, s', g);
    CloseEndMoves(s, t);
    CallerMoveKeepsInv(s, s', t, g);
  }

  // ---------------------------------------------------------------- building, inserting, dropping

  lemma BuildKeepsTasks(s: State, t: TaskId)
    requires Inv(s) && CanBuild(s, t)
    ensures TasksOk(Build(s, t))
  {
    var s' := Build(s, t);
    forall x | x in s'.tasks
      ensures x < s'.nextTask && TaskOk(s', x, s'.tasks[x])
    {
      assert TaskOk(s, x, s.tasks[x]);
    }
  }

  lemma BuildKeepsGens(s: State, t: TaskId)
    requires Inv(s) && CanBuild(s, t)
    ensures MapOk(Build(s, t)) && GensOk(Build(s, t))
  {
    var s' := Build(s, t);
    forall g | g in s.gens
      ensures LockOk(s', g, s'.gens[g].lock)
    {
      assert LockOk(s, g, s.gens[g].lock);
    }
  }

  lemma BuildKeepsCounts(s: State, t: TaskId)
    requires Conserved(s) && ReleasedOk(s) && GensOk(s) && CanBuild(s, t)
    ensures Conserved(Build(s, t)) && ReleasedOk(Build(s, t))
  {
    var s', g := Build(s, t), s.nextGen;
    assert g !in s.gens;
    assert HeldBySessions(s') == HeldBySessions(s) + {g};
    assert HeldByConnects(s') == HeldByConnects(s) - {t};
  }

  lemma BuildKeepsInv(s: State, t: TaskId)
    requires Inv(s) && CanBuild(s, t)
    ensures Inv(Build(s, t))
  {
    var s' := Build(s, t);
    BuildKeepsTasks(s, t);
    BuildKeepsGens(s, t);
    BuildKeepsCounts(s, t);
    CredentialsKept(s, s');
    ErrorsKept(s, s');
  }

  lemma InsertKeepsTasks(s: State, t: TaskId)
    requires Inv(s) && CanInsert(s, t) && s.gens[s.tasks[t].g].conn !in s.sessions
    ensures TasksOk(Insert(s, t))
  {
    var s' := Insert(s, t);
    assert TaskOk(s, t, s.tasks[t]);
    forall x | x in s'.tasks
      ensures x < s'.nextTask && TaskOk(s', x, s'.tasks[x])
    {
      assert TaskOk(s, x, s.tasks[x]);
    }
  }

  lemma InsertKeepsGens(s: State, t: TaskId)
    requires Inv(s) && CanInsert(s, t) && s.gens[s.tasks[t].g].conn !in s.sessions
    ensures MapOk(Insert(s, t)) && GensOk(Insert(s, t))
  {
    var s' := Insert(s, t);
    assert TaskOk(s, t, s.tasks[t]);
    forall g | g in s.gens
      ensures LockOk(s', g, s'.gens[g].lock)
    {
      assert LockOk(s, g, s.gens[g].lock);
    }
  }

  lemma DuplicateKeepsInv(s: State, t: TaskId)
    requires Inv(s) && CanInsert(s, t) && s.gens[s.tasks[t].g].conn in s.sessions
    ensures Inv(Insert(s, t))
  {
    var s' := Insert(s, t);
    assert TaskOk(s, t, s.tasks[t]);
    CountsKept(s, s');
    TaskChangeKeepsInv(s, s', t);
  }

  lemma InsertKeepsInv(s: State, t: TaskId)
    requires Inv(s) && CanInsert(s, t) && s.gens[s.tasks[t].g].conn !in s.sessions
    ensures Inv(Insert(s, t))
  {
    var s', g := Insert(s, t), s.tasks[t].g;
    assert TaskOk(s, t, s.tasks[t]);
    CountsKept(s, s');
    InsertKeepsTasks(s, t);
    InsertKeepsGens(s, t);
    CredentialsKept(s, s');
    assert g !in s.errors;
    ErrorsKept(s, s');
  }

  /** Session `g` disappeared and nothing that others rely on did. */
  ghost predicate Dropped(s: State, s': State, g: GenId) {
    && Unreferenced(s, g)
    && s'.(gens := s.gens, free := s.free, released := s.released) == s
    && g !in s'.gens
    && forall h | h != g :: (h in s.gens <==> h in s'.gens) && (h in s.gens ==> s.gens[h] == s'.gens[h])
  }

  lemma DropKeepsTasks(s: State, s': State, g: GenId)
    requires Inv(s) && Dropped(s, s', g)
    ensures TasksOk(s')
  {
    forall x | x in s'.tasks
      ensures x < s'.nextTask && TaskOk(s', x, s'.tasks[x])
    {
      assert TaskOk(s, x, s.tasks[x]);
      assert !TaskRefers(s.tasks[x], g);
    }
  }

  lemma DropKeepsGens(s: State, s': State, g: GenId)
    requires Inv(s) && Dropped(s, s', g)
    ensures MapOk(s') && GensOk(s')
  {
    forall h | h in s'.gens
      ensures h < s'.nextGen && s'.gens[h].builder < s'.nextTask && SessionOk(s'.gens[h]) && LockOk(s', h, s'.gens[h].lock)
    {
      assert LockOk(s, h, s.gens[h].lock);
    }
    forall c | c in s'.sessions
      ensures s'.sessions[c] in s'.gens && s'.gens[s'.sessions[c]].conn == c && MappedOk(s'.gens[s'.sessions[c]])
    {
      assert s.sessions[c] != g by {
        assert !InMap(s, g);
      }
    }
  }

  lemma DropKeepsLogs(s: State, s': State, g: GenId)
    requires Inv(s) && Dropped(s, s', g)
    requires forall h | h in s.released :: h in s'.released
    ensures CredentialsOk(s') && ErrorsOk(s')
  {
    CredentialsKept(s, s');
    ErrorsKept(s, s');
  }

  lemma DropKeepsCounts(s: State, g: GenId)
    requires Conserved(s) && ReleasedOk(s) && GensOk(s) && g in s.gens
    ensures Conserved(DropSession(s, g)) && ReleasedOk(DropSession(s, g))
    ensures forall h | h in s.released :: h in DropSession(s, g).released
  {
    var s' := DropSession(s, g);
    assert HeldByConnects(s') == HeldByConnects(s);
    if s.gens[g].slot {
      GiveKeepsLog(s, s', g);
    } else {
      assert HeldBySessions(s') == HeldBySessions(s);
    }
  }

  lemma DropKeepsInv(s: State, g: GenId)
    requires Inv(s) && Unreferenced(s, g)
    ensures Inv(DropSession(s, g))
  {
    var s' := DropSession(s, g);
    DropKeepsTasks(s, s', g);
    DropKeepsGens(s, s', g);
    DropKeepsCounts(s, g);
    DropKeepsLogs(s, s', g);
  }

  // ---------------------------------------------------------------- the event task's own end

  lemma FinishReleaseKeepsTasks(s: State, g: GenId)
    requires Inv(s) && CanFinish(s, g)
    ensures TasksOk(FinishRelease(s, g))
  {
    var s' := FinishRelease(s, g);
    assert SessionOk(s.gens[g]);
    forall x | x in s'.tasks
      ensures x < s'.nextTask && TaskOk(s', x, s'.tasks[x])
    {
      assert TaskOk(s, x, s.tasks[x]);
    }
  }

  lemma FinishReleaseKeepsGens(s: State, g: GenId)
    requires Inv(s) && CanFinish(s, g)
    ensures MapOk(FinishRelease(s, g)) && GensOk(FinishRelease(s, g))
  {
    var s' := FinishRelease(s, g);
    assert SessionOk(s.gens[g]);
    assert SessionOk(s'.gens[g]);
    forall h | h in s'.gens
      ensures LockOk(s', h, s'.gens[h].lock)
    {
      assert LockOk(s, h, s.gens[h].lock);
    }
  }

  lemma FinishReleaseKeepsInv(s: State, g: GenId)
    requires Inv(s) && CanFinish(s, g)
    ensures Inv(FinishRelease(s, g))
  {
    var s' := FinishRelease(s, g);
    assert SessionOk(s.gens[g]);
    FinishReleaseKeepsTasks(s, g);
    FinishReleaseKeepsGens(s, g);
    assert HeldByConnects(s') == HeldByConnects(s);
    GiveKeepsLog(s, s', g);
    CredentialsKept(s, s');
    assert g !in s.errors;
    ErrorsKept(s, s');
  }

  lemma EventRemoveKeepsInv(s: State, g: GenId)
    requires Inv(s) && CanRemove(s, g)
    ensures Inv(FinishRemove(s, g))
  {
    var s' := FinishRemove(s, g);
    var r := s.gens[g];
    var q := r.(events := Revoking);
    assert SessionOk(r);
    if InMap(s, g) {
      var s1 := s.(sessions := s.sessions - {r.conn});
      UnmapKeepsInv(s, r.conn);
      HarmlessKeepsInv(s1, g, q);
      var s2 := SetGen(s1, g, q);
      if r.events.err {
        assert g !in s.errors;
        assert s' == s2.(errors := s.errors + [g]);
        LogErrorKeepsInv(s2, g);
      } else {
        assert s' == s2;
      }
    } else {
      HarmlessKeepsInv(s, g, q);
    }
  }

  lemma LogErrorKeepsInv(s: State, g: GenId)
    requires Inv(s) && g in s.gens && s.gens[g].events == Revoking && g !in s.errors && !InMap(s, g)
    ensures Inv(s.(errors := s.errors + [g]))
  {
    var s' := s.(errors := s.errors + [g]);
    assert HeldBySessions(s') == HeldBySessions(s);
    assert HeldByConnects(s') == HeldByConnects(s);
    forall t | t in s'.tasks
      ensures TaskOk(s', t, s'.tasks[t])
    {
      assert TaskOk(s, t, s.tasks[t]);
    }
    forall u | u in s'.table
      ensures RevokerPending(s', s'.table[u].session)
    {
      assert RevokerPending(s, s.table[u].session);
    }
  }

  lemma EventRevokeKeepsInv(s: State, g: GenId)
    requires Inv(s) && AtEvent(s, g, Revoking)
    ensures Inv(FinishRevoke(s, g))
  {
    var s1 := s.(table := TC.RevokeTable(s.table, s.gens[g].conn));
    RevokeKeepsInv(s, s.gens[g].conn);
    HarmlessKeepsInv(s1, g, s.gens[g].(events := Done));
  }

  lemma EventIssueKeepsInv(s: State, g: GenId, now: nat, minted: TC.Credential)
    requires Inv(s) && AtEvent(s, g, Issuing) && minted.session == s.gens[g].conn
    ensures Inv(IssueForEvent(s, g, now, minted))
  {
    var q := s.gens[g].(events := Running);
    HarmlessKeepsInv(s, g, q);
    var s1 := SetGen(s, g, q);
    assert g in s1.gens && s1.gens[g].conn == minted.session && WillRevoke(s1.gens[g].events);
    IssueKeepsInv(s1, minted, now);
  }

  lemma OwnResultOk(r: Session, o: OwnStep)
    requires SessionOk(r) && OwnEnabled(r, o)
    ensures SessionOk(OwnResult(r, o))
    ensures MappedOk(r) ==> MappedOk(OwnResult(r, o))
  {
  }

  lemma OwnStepKeepsInv(s: State, g: GenId, o: OwnStep)
    requires Inv(s) && g in s.gens && OwnEnabled(s.gens[g], o)
    ensures Inv(SetGen(s, g, OwnResult(s.gens[g], o)))
  {
    var r := s.gens[g];
    assert SessionOk(r);
    assert InMap(s, g) ==> MappedOk(r);
    OwnResultOk(r, o);
    HarmlessKeepsInv(s, g, OwnResult(r, o));
  }

  lemma HandlerIssueKeepsInv(s: State, conn: Conn, now: nat, minted: TC.Credential)
    requires Inv(s) && HandlerActive(s, conn) && minted.session == conn
    ensures Inv(IssueForHandler(s, conn, now, minted))
  {
    IssueKeepsInv(s, minted, now);
    HandlerKeepsInv(s.(table := TC.IssueTable(s.table, minted, now)), conn, Looping);
  }

  lemma HandlerDisconnectKeepsInv(s: State, conn: Conn)
    requires Inv(s)
    ensures Inv(HandlerExit(s, conn))
  {
    DisconnectKeepsInv(s, conn);
    HandlerKeepsInv(BeginDisconnect(s, conn), conn, Disconnected(if conn in s.sessions then Some(s.nextTask) else None));
  }

  lemma HandlerRevokeKeepsInv(s: State, conn: Conn)
    requires Inv(s)
    ensures Inv(RevokeForHandler(s, conn))
  {
    RevokeKeepsInv(s, conn);
    HandlerKeepsInv(s.(table := TC.RevokeTable(s.table, conn)), conn, Gone);
  }

  lemma CallStepKeepsInv(s: State, a: Action)
    requires Inv(s) && Enabled(s, a)
    requires a.BeginShutdown? || a.ConnectCheck? || a.ConnectCancel? || a.Disconnect? || a.Use? || a.UseEnd?
    ensures Inv(Apply(s, a))
  {
    match a {
      case BeginShutdown =>
        SameCoreKeepsCore(s, Apply(s, a));
        CredentialsKept(s, Apply(s, a));
      case ConnectCheck(conn) => NewTaskKeepsInv(s, Checked(conn));
      case ConnectCancel(t) => EndTaskKeepsInv(s, t);
      case Disconnect(conn) => DisconnectKeepsInv(s, conn);
      case Use(conn) => NewTaskKeepsInv(s, Using(s.sessions[conn]));
      case UseEnd(t) => EndTaskKeepsInv(s, t);
    }
  }

  lemma EventStepKeepsInv(s: State, a: Action)
    requires Inv(s) && Enabled(s, a)
    requires a.EventIssue? || a.EventRelease? || a.EventRemove? || a.EventRevoke? || a.Drop?
    ensures Inv(Apply(s, a))
  {
    match a {
      case EventIssue(g, now, minted) => EventIssueKeepsInv(s, g, now, minted);
      case EventRelease(g) => FinishReleaseKeepsInv(s, g);
      case EventRemove(g) => EventRemoveKeepsInv(s, g);
      case EventRevoke(g) => EventRevokeKeepsInv(s, g);
      case Drop(g) => DropKeepsInv(s, g);
    }
  }

  lemma ConnectStepKeepsInv(s: State, a: Action)
    requires Inv(s) && Enabled(s, a)
    requires a.ConnectAcquire? || a.ConnectAbandon? || a.ConnectBuild? || a.ConnectInsert?
    ensures Inv(Apply(s, a))
  {
    match a {
      case ConnectAcquire(t) => AcquireKeepsInv(s, t);
      case ConnectAbandon(t) => AbandonKeepsInv(s, t);
      case ConnectBuild(t) => BuildKeepsInv(s, t);
      case ConnectInsert(t) =>
        if s.gens[s.tasks[t].g].conn in s.sessions {
          DuplicateKeepsInv(s, t);
        } else {
          InsertKeepsInv(s, t);
        }
    }
  }

  lemma CloseStepKeepsInv(s: State, a: Action)
    requires Inv(s) && Enabled(s, a)
    requires a.CloseLock? || a.CloseVoice? || a.CloseEnd? || a.CloseCancel?
    ensures Inv(Apply(s, a))
  {
    match a {
      case CloseLock(t) => CloseLockKeepsInv(s, t);
      case CloseVoice(t) => CloseVoiceKeepsInv(s, t);
      case CloseEnd(t) => CloseEndKeepsInv(s, t);
      case CloseCancel(t) => CloseCancelKeepsInv(s, t);
    }
  }

  /** Every action keeps the invariant. */
  lemma StepKeepsInv(s: State, a: Action)
    requires Inv(s) && Enabled(s, a)
    ensures Inv(Apply(s, a))
  {
    if a.Own? {
      OwnStepKeepsInv(s, a.g, a.step);
    } else if a.EventIssue? || a.EventRelease? || a.EventRemove? || a.EventRevoke? || a.Drop? {
      EventStepKeepsInv(s, a);
    } else if a.ConnectAcquire? || a.ConnectAbandon? || a.ConnectBuild? || a.ConnectInsert? {
      ConnectStepKeepsInv(s, a);
    } else if a.CloseLock? || a.CloseVoice? || a.CloseEnd? || a.CloseCancel? {
      CloseStepKeepsInv(s, a);
    } else if a.BeginShutdown? || a.ConnectCheck? || a.ConnectCancel? || a.Disconnect? || a.Use? || a.UseEnd? {
      CallStepKeepsInv(s, a);
    } else if a.HandlerIssue? {
      HandlerIssueKeepsInv(s, a.conn, a.now, a.minted);
    } else if a.HandlerDisconnect? {
      HandlerDisconnectKeepsInv(s, a.conn);
    } else if a.HandlerRevoke? {
      HandlerRevokeKeepsInv(s, a.conn);
    } else {
      HandlerKeepsInv(s, a.conn, Apply(s, a).handlers[a.conn]);
    }
  }

  // ---------------------------------------------------------------- what a step leaves alone

  predicate IsIssue(a: Action) {
    a.EventIssue? || a.HandlerIssue?
  }

  predicate IsHandlerStep(a: Action) {
    || a.HandlerOpen? || a.HandlerLookup? || a.HandlerIssue? || a.HandlerResume? || a.HandlerLeave?
    || a.HandlerDisconnect? || a.HandlerRevoke?
  }

  /** The capacity is fixed, the logs only grow, and few steps touch the map or the credentials or send an error. */
  ghost predicate Framed(s: State, a: Action, s': State) {
    && s'.capacity == s.capacity
    && s.released <= s'.released
    && (!a.EventRemove? ==> s'.errors == s.errors)
    && (!a.ConnectInsert? && !a.Disconnect? && !a.EventRemove? && !a.HandlerDisconnect? ==> s'.sessions == s.sessions)
    && (!IsIssue(a) && !a.EventRevoke? && !a.HandlerRevoke? ==> s'.table == s.table)
    && s.nextGen <= s'.nextGen && (s'.stopping <==> s.stopping || a == BeginShutdown)
    && (!IsHandlerStep(a) ==> s'.handlers == s.handlers)
  }

  lemma ConnectFrames(s: State, a: Action)
    requires Enabled(s, a)
    requires || a.BeginShutdown? || a.ConnectCheck? || a.ConnectAcquire? || a.ConnectAbandon?
             || a.ConnectBuild? || a.ConnectInsert? || a.ConnectCancel?
    ensures Framed(s, a, Apply(s, a))
  {
  }

  lemma CloseStartFrames(s: State, a: Action)
    requires Enabled(s, a) && (a.CloseLock? || a.CloseVoice?)
    ensures Framed(s, a, Apply(s, a))
  {
  }

  lemma CloseEndFrames(s: State, a: Action)
    requires Enabled(s, a) && (a.CloseEnd? || a.CloseCancel?)
    ensures Framed(s, a, Apply(s, a))
  {
  }

  lemma CallFrames(s: State, a: Action)
    requires Enabled(s, a) && (a.Disconnect? || a.Use? || a.UseEnd?)
    ensures Framed(s, a, Apply(s, a))
  {
  }

  lemma EventFrames(s: State, a: Action)
    requires Enabled(s, a) && (a.Own? || a.EventIssue? || a.EventRelease?)
    ensures Framed(s, a, Apply(s, a))
  {
  }

  lemma RemoveFrames(s: State, a: Action)
    requires Enabled(s, a) && a.EventRemove?
    ensures Framed(s, a, Apply(s, a))
  {
  }

  lemma EventEndFrames(s: State, a: Action)
    requires Enabled(s, a) && (a.EventRevoke? || a.Drop?)
    ensures Framed(s, a, Apply(s, a))
  {
  }

  lemma HandlerFrames(s: State, a: Action)
    requires Enabled(s, a) && (a.HandlerOpen? || a.HandlerLookup? || a.HandlerResume? || a.HandlerLeave?)
    ensures Framed(s, a, Apply(s, a))
  {
  }

  lemma HandlerEndFrames(s: State, a: Action)
    requires Enabled(s, a) && (a.HandlerIssue? || a.HandlerDisconnect? || a.HandlerRevoke?)
    ensures Framed(s, a, Apply(s, a))
  {
  }

  lemma StepFrames(s: State, a: Action)
    requires Enabled(s, a)
    ensures Framed(s, a, Apply(s, a))
  {
    if a.CloseLock? || a.CloseVoice? {
      CloseStartFrames(s, a);
    } else if a.CloseEnd? || a.CloseCancel? {
      CloseEndFrames(s, a);
    } else if a.Disconnect? || a.Use? || a.UseEnd? {
      CallFrames(s, a);
    } else if a.Own? || a.EventIssue? || a.EventRelease? {
      EventFrames(s, a);
    } else if a.EventRemove? {
      RemoveFrames(s, a);
    } else if a.EventRevoke? || a.Drop? {
      EventEndFrames(s, a);
    } else if a.HandlerOpen? || a.HandlerLookup? || a.HandlerResume? || a.HandlerLeave? {
      HandlerFrames(s, a);
    } else if a.HandlerIssue? || a.HandlerDisconnect? || a.HandlerRevoke? {
      HandlerEndFrames(s, a);
    } else {
      ConnectFrames(s, a);
    }
  }

  /** So it holds in every state of every run. */
  lemma {:induction false} RunKeepsInv(states: seq<State>, actions: seq<Action>, capacity: nat, i: nat)
    requires IsRun(states, actions, capacity) && i < |states|
    ensures Inv(states[i]) && states[i].capacity == capacity
  {
    if i == 0 {
      InitInv(capacity);
    } else {
      RunKeepsInv(states, actions, capacity, i - 1);
      assert StepAt(states, actions, i - 1);
      StepKeepsInv(states[i - 1], actions[i - 1]);
      StepFrames(states[i - 1], actions[i - 1]);
    }
  }

  lemma ReachedInv(s: State)
    requires Reached(s)
    ensures Inv(s)
  {
    var states, actions, capacity :| IsRun(states, actions, capacity) && states[|states| - 1] == s;
    RunKeepsInv(states, actions, capacity, |actions|);
  }
}
