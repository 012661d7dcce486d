/**
 The session lifecycle of `src/session.rs`, with the exit path of `src/ws/handler.rs`.

 Connects, disconnects, event tasks, voice-setup tasks and WebSocket handlers run
 concurrently, on the threads of a multi-threaded runtime.  An `Action` is one segment of
 one of them between two acquisitions of a lock (the map's, a session's, the credential
 table's), whether or not the source awaits in between; a run interleaves actions freely.
 The map lock is never held across an await, so a map access is part of one action.  A session's own lock is held across the awaits of a
 teardown, so it is part of the state.
 */
module Lifecycle {
  import opened Common
  import TC = TurnCredentials

  type Conn = string
  type GenId = nat
  type TaskId = nat

  /** How far `shutdown_user_session` has come; past `AwaitLock` the caller holds the session lock. */
  datatype Teardown = AwaitLock | StoppingBridge | ClosingPeer

  /** Where a session's event task is.  `err` is whether a terminal error is due. */
  datatype EventPc =
    | Unspawned
    | Starting
    | Running
    | Issuing
    | Finishing(td: Teardown, err: bool)
    | Removing(err: bool)
    | Revoking
    | Done

  datatype VoicePc = NoVoice | Pending | Aborted | Ended

  datatype Holder = EventTask | Caller(t: TaskId)

  /**
   One `UserSession` object: one generation of a connection.  `builder` is the connect
   call that made it; `handle` is whether `voice_setup_task` is set; `events` and
   `voicePc` follow the two tasks that belong to this generation alone.
   */
  datatype Session = Session(
    conn: Conn,
    builder: TaskId,
    slot: bool,
    closed: bool,
    lock: Option<Holder>,
    authenticated: bool,
    events: EventPc,
    voicePc: VoicePc,
    handle: bool,
    voice: bool,
    bridge: bool)

  /** A call into the session manager that is between two awaits. */
  datatype Task =
    | Checked(conn: Conn)
    | Holding(conn: Conn)
    | Inserting(g: GenId)
    | Closing(g: GenId, td: Teardown)
    | Using(g: GenId)

  datatype HandlerPc =
    | Looping
    | Refreshing(g: GenId)
    | Leaving
    | Disconnected(task: Option<TaskId>)
    | Gone

  datatype State = State(
    capacity: nat,
    free: nat,
    stopping: bool,
    sessions: map<Conn, GenId>,
    gens: map<GenId, Session>,
    nextGen: GenId,
    tasks: map<TaskId, Task>,
    nextTask: TaskId,
    handlers: map<Conn, HandlerPc>,
    table: TC.Table,
    released: seq<GenId>,
    errors: seq<GenId>)

  function Init(capacity: nat): State {
    State(capacity, capacity, false, map[], map[], 0, map[], 0, map[], map[], [], [])
  }

  // ---------------------------------------------------------------- segments of a teardown

  /** First segment: close, abort the voice setup, take the bridge.  The lock stays held. */
  function Shut(r: Session, who: Holder): Session {
    r.(closed := true,
       handle := false,
       voicePc := if r.handle && r.voicePc == Pending then Aborted else r.voicePc,
       bridge := false,
       lock := Some(who))
  }

  /** Last segment: the permit is returned and the lock let go. */
  function Released(r: Session): Session {
    r.(slot := false, lock := None)
  }

  function SetGen(s: State, g: GenId, r: Session): State {
    s.(gens := s.gens[g := r])
  }

  function SetTask(s: State, t: TaskId, k: Task): State {
    s.(tasks := s.tasks[t := k])
  }

  function NewTask(s: State, k: Task): State {
    s.(tasks := s.tasks[s.nextTask := k], nextTask := s.nextTask + 1)
  }

  function EndTask(s: State, t: TaskId): State {
    s.(tasks := s.tasks - {t})
  }

  function GivePermit(s: State, g: GenId): State {
    s.(free := s.free + 1, released := s.released + [g])
  }

  /** Removing a connection from the map and starting to tear its session down, if there is one. */
  function BeginDisconnect(s: State, conn: Conn): State {
    if conn in s.sessions
    then NewTask(s.(sessions := s.sessions - {conn}), Closing(s.sessions[conn], AwaitLock))
    else s
  }

  predicate InMap(s: State, g: GenId) {
    g in s.gens && s.gens[g].conn in s.sessions && s.sessions[s.gens[g].conn] == g
  }

  predicate TaskRefers(k: Task, g: GenId) {
    match k
    case Checked(_) => false
    case Holding(_) => false
    case Inserting(x) => x == g
    case Closing(x, _) => x == g
    case Using(x) => x == g
  }

  /** Nothing keeps the session object alive any more. */
  predicate Unreferenced(s: State, g: GenId) {
    && g in s.gens && !InMap(s, g)
    && s.gens[g].events in {Unspawned, Done} && s.gens[g].voicePc != Pending
    && (forall t | t in s.tasks :: !TaskRefers(s.tasks[t], g))
    && (forall c | c in s.handlers :: s.handlers[c] != Refreshing(g))
  }

  // ---------------------------------------------------------------- connect_user

  predicate CanAcquire(s: State, t: TaskId) {
    t in s.tasks && s.tasks[t].Checked? && s.free > 0
  }

  function Acquire(s: State, t: TaskId): State
    requires CanAcquire(s, t)
  {
    SetTask(s, t, Holding(s.tasks[t].conn)).(free := s.free - 1)
  }

  predicate CanBuild(s: State, t: TaskId) {
    t in s.tasks && s.tasks[t].Holding?
  }

  /** The session object is made; the permit moves from the call into its slot. */
  function Build(s: State, t: TaskId): State
    requires CanBuild(s, t)
  {
    var r := Session(s.tasks[t].conn, t, true, false, None, false, Unspawned, NoVoice, false, false, false);
    SetTask(SetGen(s, s.nextGen, r), t, Inserting(s.nextGen)).(nextGen := s.nextGen + 1)
  }

  predicate CanInsert(s: State, t: TaskId) {
    t in s.tasks && s.tasks[t].Inserting? && s.tasks[t].g in s.gens
  }

  /** Under the map lock: insert and spawn the event task, or give up on a duplicate. */
  function Insert(s: State, t: TaskId): State
    requires CanInsert(s, t)
  {
    var g := s.tasks[t].g;
    var conn := s.gens[g].conn;
    if conn in s.sessions then SetTask(s, t, Closing(g, AwaitLock))
    else EndTask(SetGen(s, g, s.gens[g].(events := Starting)), t).(sessions := s.sessions[conn := g])
  }

  /** A connect that fails or is cancelled before it has a session drops its permit, if it has one. */
  function Abandon(s: State, t: TaskId): State
    requires t in s.tasks
  {
    if s.tasks[t].Holding? then EndTask(s, t).(free := s.free + 1) else EndTask(s, t)
  }

  // ---------------------------------------------------------------- a caller in shutdown_user_session

  predicate AtTask(s: State, t: TaskId, td: Teardown) {
    t in s.tasks && s.tasks[t].Closing? && s.tasks[t].td == td && s.tasks[t].g in s.gens
  }

  function Lock(s: State, t: TaskId): State
    requires AtTask(s, t, AwaitLock)
  {
    var g := s.tasks[t].g;
    if s.gens[g].slot
    then SetTask(SetGen(s, g, Shut(s.gens[g], Caller(t))), t, Closing(g, StoppingBridge))
    else EndTask(s, t)
  }

  function TakeVoice(s: State, t: TaskId): State
    requires AtTask(s, t, StoppingBridge)
  {
    var g := s.tasks[t].g;
    SetTask(SetGen(s, g, s.gens[g].(voice := false)), t, Closing(g, ClosingPeer))
  }

  function EndClose(s: State, t: TaskId): State
    requires AtTask(s, t, ClosingPeer)
  {
    var g := s.tasks[t].g;
    GivePermit(EndTask(SetGen(s, g, Released(s.gens[g])), t), g)
  }

  function CancelClose(s: State, t: TaskId): State
    requires t in s.tasks && s.tasks[t].Closing? && s.tasks[t].g in s.gens
  {
    var g := s.tasks[t].g;
    if s.tasks[t].td == AwaitLock then EndTask(s, t)
    else EndTask(SetGen(s, g, s.gens[g].(lock := None)), t)
  }

  // ---------------------------------------------------------------- process_events and finish_session

  /** A step of the event or voice-setup task that changes nothing but its own session. */
  datatype OwnStep =
    | Start
    | HandleConnected
    | Break(err: bool)
    | LockForFinish
    | FinishVoice
    | Attach
    | EndVoiceSetup

  predicate OwnEnabled(r: Session, o: OwnStep) {
    match o
    case Start => r.events == Starting && r.lock == None
    case HandleConnected => r.events == Running && r.lock == None
    case Break(_) => r.events == Running
    case LockForFinish => r.events.Finishing? && r.events.td == AwaitLock && r.lock == None
    case FinishVoice => r.events.Finishing? && r.events.td == StoppingBridge
    case Attach => r.voicePc == Pending && r.lock == None
    case EndVoiceSetup => r.voicePc == Pending
  }

  function OwnResult(r: Session, o: OwnStep): Session
    requires OwnEnabled(r, o)
  {
    match o
    case Start =>
      if r.closed then r.(events := Done) else r.(events := Running, voicePc := Pending, handle := true)
    case HandleConnected =>
      if r.closed then r.(events := Finishing(AwaitLock, false)) else r.(events := Issuing, authenticated := true)
    case Break(err) => r.(events := Finishing(AwaitLock, err))
    case LockForFinish =>
      if r.slot then Shut(r, EventTask).(events := Finishing(StoppingBridge, r.events.err))
      else r.(events := Removing(r.events.err))
    case FinishVoice => r.(voice := false, events := Finishing(ClosingPeer, r.events.err))
    case Attach => r.(voicePc := Ended, voice := true, bridge := true)
    case EndVoiceSetup => r.(voicePc := Ended)
  }

  predicate CanFinish(s: State, g: GenId) {
    g in s.gens && s.gens[g].events.Finishing? && s.gens[g].events.td == ClosingPeer
  }

  function FinishRelease(s: State, g: GenId): State
    requires CanFinish(s, g)
  {
    GivePermit(SetGen(s, g, Released(s.gens[g]).(events := Removing(s.gens[g].events.err))), g)
  }

  predicate CanRemove(s: State, g: GenId) {
    g in s.gens && s.gens[g].events.Removing?
  }

  /** Only this generation's entry is removed, and the terminal error is sent under the same lock. */
  function FinishRemove(s: State, g: GenId): State
    requires CanRemove(s, g)
  {
    var r := s.gens[g];
    var s1 := SetGen(s, g, r.(events := Revoking));
    if InMap(s, g)
    then s1.(sessions := s.sessions - {r.conn}, errors := if r.events.err then s.errors + [g] else s.errors)
    else s1
  }

  predicate AtEvent(s: State, g: GenId, pc: EventPc) {
    g in s.gens && s.gens[g].events == pc
  }

  function IssueForEvent(s: State, g: GenId, now: nat, minted: TC.Credential): State
    requires AtEvent(s, g, Issuing)
  {
    SetGen(s, g, s.gens[g].(events := Running)).(table := TC.IssueTable(s.table, minted, now))
  }

  function FinishRevoke(s: State, g: GenId): State
    requires AtEvent(s, g, Revoking)
  {
    SetGen(s, g, s.gens[g].(events := Done)).(table := TC.RevokeTable(s.table, s.gens[g].conn))
  }

  /** The last reference goes away, and with it a slot that is still set. */
  function DropSession(s: State, g: GenId): State
    requires g in s.gens
  {
    var s1 := s.(gens := s.gens - {g});
    if s.gens[g].slot then GivePermit(s1, g) else s1
  }

  // ---------------------------------------------------------------- handle_ws_connection

  function SetHandler(s: State, conn: Conn, pc: HandlerPc): State {
    s.(handlers := s.handlers[conn := pc])
  }

  predicate HandlerAt(s: State, conn: Conn, pc: HandlerPc) {
    conn in s.handlers && s.handlers[conn] == pc
  }

  predicate CanIssue(s: State, conn: Conn) {
    && conn in s.handlers && s.handlers[conn].Refreshing? && s.handlers[conn].g in s.gens
    && s.gens[s.handlers[conn].g].lock == None && s.gens[s.handlers[conn].g].authenticated
  }

  function IssueForHandler(s: State, conn: Conn, now: nat, minted: TC.Credential): State {
    SetHandler(s, conn, Looping).(table := TC.IssueTable(s.table, minted, now))
  }

  function HandlerExit(s: State, conn: Conn): State {
    SetHandler(BeginDisconnect(s, conn), conn,
               Disconnected(if conn in s.sessions then Some(s.nextTask) else None))
  }

  predicate CanRevoke(s: State, conn: Conn) {
    && conn in s.handlers && s.handlers[conn].Disconnected?
    && (s.handlers[conn].task.Some? ==> s.handlers[conn].task.value !in s.tasks)
  }

  function RevokeForHandler(s: State, conn: Conn): State {
    SetHandler(s, conn, Gone).(table := TC.RevokeTable(s.table, conn))
  }

  // ---------------------------------------------------------------- the step relation

  datatype Action =
    | BeginShutdown
    | ConnectCheck(conn: Conn)
    | ConnectAcquire(t: TaskId)
    | ConnectAbandon(t: TaskId)
    | ConnectBuild(t: TaskId)
    | ConnectInsert(t: TaskId)
    | ConnectCancel(t: TaskId)
    | Disconnect(conn: Conn)
    | CloseLock(t: TaskId)
    | CloseVoice(t: TaskId)
    | CloseEnd(t: TaskId)
    | CloseCancel(t: TaskId)
    | Use(conn: Conn)
    | UseEnd(t: TaskId)
    | Own(g: GenId, step: OwnStep)
    | EventIssue(g: GenId, now: nat, minted: TC.Credential)
    | EventRelease(g: GenId)
    | EventRemove(g: GenId)
    | EventRevoke(g: GenId)
    | Drop(g: GenId)
    | HandlerOpen(conn: Conn)
    | HandlerLookup(conn: Conn)
    | HandlerIssue(conn: Conn, now: nat, minted: TC.Credential)
    | HandlerResume(conn: Conn)
    | HandlerLeave(conn: Conn)
    | HandlerDisconnect(conn: Conn)
    | HandlerRevoke(conn: Conn)

  predicate Enabled(s: State, a: Action) {
    match a
    case BeginShutdown => true
    case ConnectCheck(conn) => !s.stopping && conn !in s.sessions
    case ConnectAcquire(t) => CanAcquire(s, t)
    case ConnectAbandon(t) => t in s.tasks && (s.tasks[t].Checked? || s.tasks[t].Holding?)
    case ConnectBuild(t) => CanBuild(s, t)
    case ConnectInsert(t) => CanInsert(s, t)
    case ConnectCancel(t) => t in s.tasks && s.tasks[t].Inserting?
    case Disconnect(_) => true
    case CloseLock(t) => AtTask(s, t, AwaitLock) && s.gens[s.tasks[t].g].lock == None
    case CloseVoice(t) => AtTask(s, t, StoppingBridge)
    case CloseEnd(t) => AtTask(s, t, ClosingPeer)
    case CloseCancel(t) => t in s.tasks && s.tasks[t].Closing? && s.tasks[t].g in s.gens
    case Use(conn) => conn in s.sessions
    case UseEnd(t) => t in s.tasks && s.tasks[t].Using?
    case Own(g, o) => g in s.gens && OwnEnabled(s.gens[g], o)
    case EventIssue(g, _, minted) => AtEvent(s, g, Issuing) && minted.session == s.gens[g].conn
    case EventRelease(g) => CanFinish(s, g)
    case EventRemove(g) => CanRemove(s, g)
    case EventRevoke(g) => AtEvent(s, g, Revoking)
    case Drop(g) => Unreferenced(s, g)
    case HandlerOpen(conn) => conn !in s.handlers
    case HandlerLookup(conn) => HandlerAt(s, conn, Looping) && conn in s.sessions
    case HandlerIssue(conn, _, minted) => CanIssue(s, conn) && minted.session == conn
    case HandlerResume(conn) => conn in s.handlers && s.handlers[conn].Refreshing?
    case HandlerLeave(conn) => HandlerAt(s, conn, Looping)
    case HandlerDisconnect(conn) => HandlerAt(s, conn, Leaving)
    case HandlerRevoke(conn) => CanRevoke(s, conn)
  }

  function Apply(s: State, a: Action): State
    requires Enabled(s, a)
  {
    match a
    case BeginShutdown => s.(stopping := true)
    case ConnectCheck(conn) => NewTask(s, Checked(conn))
    case ConnectAcquire(t) => Acquire(s, t)
    case ConnectAbandon(t) => Abandon(s, t)
    case ConnectBuild(t) => Build(s, t)
    case ConnectInsert(t) => Insert(s, t)
    case ConnectCancel(t) => EndTask(s, t)
    case Disconnect(conn) => BeginDisconnect(s, conn)
    case CloseLock(t) => Lock(s, t)
    case CloseVoice(t) => TakeVoice(s, t)
    case CloseEnd(t) => EndClose(s, t)
    case CloseCancel(t) => CancelClose(s, t)
    case Use(conn) => NewTask(s, Using(s.sessions[conn]))
    case UseEnd(t) => EndTask(s, t)
    case Own(g, o) => SetGen(s, g, OwnResult(s.gens[g], o))
    case EventIssue(g, now, minted) => IssueForEvent(s, g, now, minted)
    case EventRelease(g) => FinishRelease(s, g)
    case EventRemove(g) => FinishRemove(s, g)
    case EventRevoke(g) => FinishRevoke(s, g)
    case Drop(g) => DropSession(s, g)
    case HandlerOpen(conn) => SetHandler(s, conn, Looping)
    case HandlerLookup(conn) => SetHandler(s, conn, Refreshing(s.sessions[conn]))
    case HandlerIssue(conn, now, minted) => IssueForHandler(s, conn, now, minted)
    case HandlerResume(conn) => SetHandler(s, conn, Looping)
    case HandlerLeave(conn) => SetHandler(s, conn, Leaving)
    case HandlerDisconnect(conn) => HandlerExit(s, conn)
    case HandlerRevoke(conn) => RevokeForHandler(s, conn)
  }

  // ---------------------------------------------------------------- runs

  ghost predicate IsRun(states: seq<State>, actions: seq<Action>, capacity: nat) {
    && |states| == |actions| + 1
    && states[0] == Init(capacity)
    && forall i | 0 <= i < |actions| :: StepAt(states, actions, i)
  }

  ghost predicate StepAt(states: seq<State>, actions: seq<Action>, i: int)
    requires |states| == |actions| + 1 && 0 <= i < |actions|
  {
    Enabled(states[i], actions[i]) && states[i + 1] == Apply(states[i], actions[i])
  }

  ghost predicate Goes(s: State, a: Action, s': State) {
    Enabled(s, a) && Apply(s, a) == s'
  }

  /** Some run, of some capacity, ends in `s`. */
  ghost predicate Reached(s: State) {
    exists states, actions, capacity :: IsRun(states, actions, capacity) && states[|states| - 1] == s
  }

  lemma ReachedAtFirst(capacity: nat)
    ensures Reached(Init(capacity))
  {
    assert IsRun([Init(capacity)], [], capacity);
  }

  lemma ReachedNext(s: State, a: Action, s': State)
    requires Reached(s) && Goes(s, a, s')
    ensures Reached(s')
  {
    var states, actions, capacity :| IsRun(states, actions, capacity) && states[|states| - 1] == s;
    var states', actions' := states + [s'], actions + [a];
    forall i | 0 <= i < |actions'|
      ensures StepAt(states', actions', i)
    {
      assert i < |actions| ==> StepAt(states, actions, i);
    }
    assert IsRun(states', actions', capacity);
  }
}
