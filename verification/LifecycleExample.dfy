/**
 Two concrete runs of the lifecycle: the race that the final revoke of the event task is
 there for does happen, and that revoke can come too late for a reconnect.
 */
module LifecycleExample {
  import opened Common
  import opened Lifecycle
  import opened LifecycleInvariant
  import opened LifecycleReconnect
  import TC = TurnCredentials

  /** One permit, one connection "c", at most two generations. */
  function Snap(free: nat, sessions: map<Conn, GenId>, gens: map<GenId, Session>, nextGen: GenId,
                tasks: map<TaskId, Task>, nextTask: TaskId, pc: HandlerPc, released: seq<GenId>): State {
    State(1, free, false, sessions, gens, nextGen, tasks, nextTask, map["c" := pc], map[], released, [])
  }

  function Rec(slot: bool, closed: bool, lock: Option<Holder>, authenticated: bool, events: EventPc,
               voicePc: VoicePc, handle: bool): Session {
    Session("c", 0, slot, closed, lock, authenticated, events, voicePc, handle, false, false)
  }

  const BUILT := Rec(true, false, None, false, Unspawned, NoVoice, false)
  const STARTED := BUILT.(events := Running, voicePc := Pending, handle := true)
  const ISSUING := STARTED.(events := Issuing, authenticated := true)
  const CLOSING := Rec(true, true, Some(Caller(1)), true, Issuing, Aborted, false)
  const CLOSED := CLOSING.(slot := false, lock := None)

  const S1 := Snap(1, map[], map[], 0, map[], 0, Looping, [])
  const S2 := Snap(1, map[], map[], 0, map[0 := Checked("c")], 1, Looping, [])
  const S3 := Snap(0, map[], map[], 0, map[0 := Holding("c")], 1, Looping, [])
  const S4 := Snap(0, map[], map[0 := BUILT], 1, map[0 := Inserting(0)], 1, Looping, [])
  const S5 := Snap(0, map["c" := 0], map[0 := BUILT.(events := Starting)], 1, map[], 1, Looping, [])
  const S6 := Snap(0, map["c" := 0], map[0 := STARTED], 1, map[], 1, Looping, [])
  const S7 := Snap(0, map["c" := 0], map[0 := ISSUING], 1, map[], 1, Looping, [])
  const S8 := Snap(0, map["c" := 0], map[0 := ISSUING], 1, map[], 1, Leaving, [])
  const S9 := Snap(0, map[], map[0 := ISSUING], 1, map[1 := Closing(0, AwaitLock)], 2, Disconnected(Some(1)), [])
  const S10 := Snap(0, map[], map[0 := CLOSING], 1, map[1 := Closing(0, StoppingBridge)], 2, Disconnected(Some(1)), [])
  const S11 := Snap(0, map[], map[0 := CLOSING], 1, map[1 := Closing(0, ClosingPeer)], 2, Disconnected(Some(1)), [])
  const S12 := Snap(1, map[], map[0 := CLOSED], 1, map[], 2, Disconnected(Some(1)), [0])
  const S13 := Snap(1, map[], map[0 := CLOSED], 1, map[], 2, Gone, [0])

  lemma Opens()
    ensures Goes(Init(1), HandlerOpen("c"), S1)
  {
    assert Init(1).handlers["c" := Looping] == map["c" := Looping];
  }

  lemma Connects()
    ensures Goes(S1, ConnectCheck("c"), S2)
  {
    assert S1.tasks[0 := Checked("c")] == map[0 := Checked("c")];
  }

  lemma Acquires()
    ensures Goes(S2, ConnectAcquire(0), S3)
  {
    assert S2.tasks[0 := Holding("c")] == map[0 := Holding("c")];
  }

  lemma Inserts()
    ensures Goes(S3, ConnectBuild(0), S4) && Goes(S4, ConnectInsert(0), S5)
  {
    assert Insert(S4, 0).tasks == map[];
  }

  lemma Authenticates()
    ensures Goes(S5, Own(0, Start), S6) && Goes(S6, Own(0, HandleConnected), S7)
  {
  }

  lemma Leaves()
    ensures Goes(S7, HandlerLeave("c"), S8)
  {
  }

  lemma Disconnects()
    ensures Goes(S8, HandlerDisconnect("c"), S9)
  {
    assert S8.sessions - {"c"} == map[];
    assert BeginDisconnect(S8, "c").sessions == map[];
  }

  lemma Closes()
    ensures Goes(S9, CloseLock(1), S10) && Goes(S10, CloseVoice(1), S11)
  {
  }

  lemma Revokes()
    ensures Goes(S11, CloseEnd(1), S12) && Goes(S12, HandlerRevoke("c"), S13)
  {
    assert EndClose(S11, 1).tasks == map[];
    assert RevokeForHandler(S12, "c").table == map[];
  }

  /** The state once the event task issues its credential, after all that. */
  function Late(minted: TC.Credential): State {
    S13.(gens := map[0 := CLOSED.(events := Running)], table := map[minted.username := minted])
  }

  lemma Issues(now: nat, minted: TC.Credential)
    requires minted.session == "c"
    ensures Goes(S13, EventIssue(0, now, minted), Late(minted))
  {
    assert TC.Prune(map[], now) == map[];
    assert TC.Reusable(map[], "c", now) == {};
  }

  lemma ReachedStarted()
    ensures Reached(S6)
  {
    ReachedAtFirst(1);
    Opens();
    ReachedNext(Init(1), HandlerOpen("c"), S1);
    Connects();
    ReachedNext(S1, ConnectCheck("c"), S2);
    Acquires();
    ReachedNext(S2, ConnectAcquire(0), S3);
    Inserts();
    ReachedNext(S3, ConnectBuild(0), S4);
    ReachedNext(S4, ConnectInsert(0), S5);
    Authenticates();
    ReachedNext(S5, Own(0, Start), S6);
  }

  lemma ReachedGone()
    ensures Reached(S13)
  {
    ReachedStarted();
    Authenticates();
    ReachedNext(S6, Own(0, HandleConnected), S7);
    Leaves();
    ReachedNext(S7, HandlerLeave("c"), S8);
    Disconnects();
    ReachedNext(S8, HandlerDisconnect("c"), S9);
    Closes();
    ReachedNext(S9, CloseLock(1), S10);
    ReachedNext(S10, CloseVoice(1), S11);
    Revokes();
    ReachedNext(S11, CloseEnd(1), S12);
    ReachedNext(S12, HandlerRevoke("c"), S13);
  }

  /**
   A handler can disconnect and revoke between the event task's check of `closed` and its
   issue: then a credential of the connection exists although its handler is gone.
   */
  lemma LateIssueHappens(now: nat, minted: TC.Credential)
    requires minted.session == "c"
    ensures Reached(Late(minted))
    ensures !HandlerActive(Late(minted), "c") && minted.username in TC.Held(Late(minted).table, "c")
  {
    ReachedGone();
    Issues(now, minted);
    ReachedNext(S13, EventIssue(0, now, minted), Late(minted));
  }

  // ---------------------------------------------------------------- a reconnect before the old revoke

  const ENDING := Rec(true, true, Some(EventTask), false, Finishing(StoppingBridge, true), Aborted, false)
  const OLD := ENDING.(slot := false, lock := None, events := Revoking)
  const NEW := BUILT.(builder := 1)

  const T1 := Snap(0, map["c" := 0], map[0 := STARTED.(events := Finishing(AwaitLock, true))], 1, map[], 1, Looping, [])
  const T2 := Snap(0, map["c" := 0], map[0 := ENDING], 1, map[], 1, Looping, [])
  const T3 := Snap(0, map["c" := 0], map[0 := ENDING.(events := Finishing(ClosingPeer, true))], 1, map[], 1, Looping, [])
  const T4 := Snap(1, map["c" := 0], map[0 := OLD.(events := Removing(true))], 1, map[], 1, Looping, [0])
  const T5 := Snap(1, map[], map[0 := OLD], 1, map[], 1, Looping, [0]).(errors := [0])
  const T6 := Snap(1, map[], map[0 := OLD], 1, map[1 := Checked("c")], 2, Looping, [0]).(errors := [0])
  const T7 := Snap(0, map[], map[0 := OLD], 1, map[1 := Holding("c")], 2, Looping, [0]).(errors := [0])
  const T8 := Snap(0, map[], map[0 := OLD, 1 := NEW], 2, map[1 := Inserting(1)], 2, Looping, [0]).(errors := [0])

  /** The reconnect is in the map, its event task at `events`; the old one has yet to revoke. */
  function Reconnected(events: EventPc): State {
    Snap(0, map["c" := 1], map[0 := OLD, 1 := NEW.(events := events)], 2, map[], 2, Looping, [0]).(errors := [0])
  }

  const T10 := Reconnected(Starting).(gens := map[0 := OLD, 1 := STARTED.(builder := 1)])
  const T11 := Reconnected(Starting).(gens := map[0 := OLD, 1 := ISSUING.(builder := 1)])

  function Current(minted: TC.Credential): State {
    T11.(gens := map[0 := OLD, 1 := ISSUING.(builder := 1, events := Running)], table := map[minted.username := minted])
  }

  lemma Breaks()
    ensures Goes(S6, Own(0, Break(true)), T1) && Goes(T1, Own(0, LockForFinish), T2)
  {
  }

  lemma Finishes()
    ensures Goes(T2, Own(0, FinishVoice), T3) && Goes(T3, EventRelease(0), T4)
  {
  }

  lemma Removes()
    ensures Goes(T4, EventRemove(0), T5)
  {
    assert T4.sessions - {"c"} == map[];
  }

  lemma ConnectsAgain()
    ensures Goes(T5, ConnectCheck("c"), T6) && Goes(T6, ConnectAcquire(1), T7)
  {
    assert T5.tasks[1 := Checked("c")] == map[1 := Checked("c")];
    assert T6.tasks[1 := Holding("c")] == map[1 := Holding("c")];
  }

  lemma InsertsAgain()
    ensures Goes(T7, ConnectBuild(1), T8) && Goes(T8, ConnectInsert(1), Reconnected(Starting))
  {
    assert T7.gens[1 := NEW] == map[0 := OLD, 1 := NEW];
    assert T8.tasks - {1} == map[];
    assert T8.gens[1 := NEW.(events := Starting)] == map[0 := OLD, 1 := NEW.(events := Starting)];
  }

  lemma AuthenticatesAgain()
    ensures Goes(Reconnected(Starting), Own(1, Start), T10) && Goes(T10, Own(1, HandleConnected), T11)
  {
    assert Reconnected(Starting).gens[1 := STARTED.(builder := 1)] == T10.gens;
    assert T10.gens[1 := ISSUING.(builder := 1)] == T11.gens;
  }

  lemma IssuesAgain(now: nat, minted: TC.Credential)
    requires minted.session == "c"
    ensures Goes(T11, EventIssue(1, now, minted), Current(minted))
  {
    assert TC.Prune(map[], now) == map[];
    assert TC.Reusable(map[], "c", now) == {};
    assert T11.gens[1 := ISSUING.(builder := 1, events := Running)] == Current(minted).gens;
  }

  lemma ReachedRemoved()
    ensures Reached(T5)
  {
    ReachedStarted();
    Breaks();
    ReachedNext(S6, Own(0, Break(true)), T1);
    ReachedNext(T1, Own(0, LockForFinish), T2);
    Finishes();
    ReachedNext(T2, Own(0, FinishVoice), T3);
    ReachedNext(T3, EventRelease(0), T4);
    Removes();
    ReachedNext(T4, EventRemove(0), T5);
  }

  lemma ReachedCurrent(now: nat, minted: TC.Credential)
    requires minted.session == "c"
    ensures Reached(Current(minted))
  {
    ReachedRemoved();
    ConnectsAgain();
    ReachedNext(T5, ConnectCheck("c"), T6);
    ReachedNext(T6, ConnectAcquire(1), T7);
    InsertsAgain();
    ReachedNext(T7, ConnectBuild(1), T8);
    ReachedNext(T8, ConnectInsert(1), Reconnected(Starting));
    AuthenticatesAgain();
    ReachedNext(Reconnected(Starting), Own(1, Start), T10);
    ReachedNext(T10, Own(1, HandleConnected), T11);
    IssuesAgain(now, minted);
    ReachedNext(T11, EventIssue(1, now, minted), Current(minted));
  }

  /**
   Credentials belong to a connection, not to a generation: the revoke that ends an old
   generation's event task takes the credential a reconnect was just given.
   */
  lemma OldRevokeReachesReconnect(now: nat, minted: TC.Credential) returns (after: State)
    requires minted.session == "c"
    ensures Reached(Current(minted)) && Goes(Current(minted), EventRevoke(0), after)
    ensures InMap(Current(minted), 1) && minted.username in TC.Held(Current(minted).table, "c")
    ensures InMap(after, 1) && !after.gens[1].closed && after.gens[1].events == Running
    ensures TC.Held(after.table, "c") == {}
    ensures !Safe(Current(minted), "c", 1)
  {
    ReachedCurrent(now, minted);
    assert !Spent(Current(minted).gens[0]);
    after := Apply(Current(minted), EventRevoke(0));
  }

  // ---------------------------------------------------------------- a bridge comes and goes

  const BRIDGED := STARTED.(voicePc := Ended, voice := true, bridge := true)
  const LEAVING := BRIDGED.(events := Finishing(AwaitLock, false))
  const STOPPING := LEAVING.(
    closed := true, handle := false, bridge := false, lock := Some(EventTask), events := Finishing(StoppingBridge, false))
  const SILENCED := STOPPING.(voice := false, events := Finishing(ClosingPeer, false))

  /** The one session is in the map as `r`. */
  function Lone(r: Session): State {
    Snap(0, map["c" := 0], map[0 := r], 1, map[], 1, Looping, [])
  }

  lemma LoneGoes(r: Session, o: OwnStep)
    requires OwnEnabled(r, o)
    ensures Goes(Lone(r), Own(0, o), Lone(OwnResult(r, o)))
  {
    assert map[0 := r][0 := OwnResult(r, o)] == map[0 := OwnResult(r, o)];
  }

  /** Voice setup attaches a bridge and a Mumble voice; the teardown takes the one, then the other. */
  lemma BridgeComesAndGoes()
    ensures Reached(Lone(BRIDGED)) && BRIDGED.bridge && BRIDGED.voice
    ensures Reached(Lone(STOPPING)) && !STOPPING.bridge && STOPPING.voice
    ensures Reached(Lone(SILENCED)) && !SILENCED.voice
  {
    ReachedStarted();
    LoneGoes(STARTED, Attach);
    ReachedNext(S6, Own(0, Attach), Lone(BRIDGED));
    LoneGoes(BRIDGED, Break(false));
    ReachedNext(Lone(BRIDGED), Own(0, Break(false)), Lone(LEAVING));
    LoneGoes(LEAVING, LockForFinish);
    ReachedNext(Lone(LEAVING), Own(0, LockForFinish), Lone(STOPPING));
    LoneGoes(STOPPING, FinishVoice);
    ReachedNext(Lone(STOPPING), Own(0, FinishVoice), Lone(SILENCED));
  }

  // ---------------------------------------------------------------- a refresh through the handler

  /** The one session is logged in; its credential table is `table`, its handler at `pc`. */
  function Online(pc: HandlerPc, table: TC.Table): State {
    Snap(0, map["c" := 0], map[0 := ISSUING.(events := Running)], 1, map[], 1, pc, []).(table := table)
  }

  lemma LogsIn(now: nat, minted: TC.Credential)
    requires minted.session == "c"
    ensures Goes(S7, EventIssue(0, now, minted), Online(Looping, map[minted.username := minted]))
  {
    assert TC.Prune(map[], now) == map[];
    assert TC.Reusable(map[], "c", now) == {};
    assert S7.gens[0 := ISSUING.(events := Running)] == map[0 := ISSUING.(events := Running)];
  }

  lemma LooksUp(table: TC.Table)
    ensures Goes(Online(Looping, table), HandlerLookup("c"), Online(Refreshing(0), table))
  {
    assert Online(Looping, table).handlers["c" := Refreshing(0)] == map["c" := Refreshing(0)];
  }

  lemma Refreshes(table: TC.Table, now: nat, next: TC.Credential)
    requires next.session == "c"
    ensures Goes(Online(Refreshing(0), table), HandlerIssue("c", now, next), Online(Looping, TC.IssueTable(table, next, now)))
  {
    assert Online(Refreshing(0), table).handlers["c" := Looping] == map["c" := Looping];
  }

  /** A logged-in session's handler can refresh, and when nothing is reusable the new credential is in the table. */
  lemma RefreshHappens(now: nat, minted: TC.Credential, later: nat, next: TC.Credential)
    requires minted.session == "c" && next.session == "c" && minted.expiresAt <= later + 90
    ensures var table := TC.IssueTable(map[minted.username := minted], next, later);
            Reached(Online(Looping, table)) && next.username in TC.Held(table, "c")
  {
    var table := map[minted.username := minted];
    ReachedStarted();
    Authenticates();
    ReachedNext(S6, Own(0, HandleConnected), S7);
    LogsIn(now, minted);
    ReachedNext(S7, EventIssue(0, now, minted), Online(Looping, table));
    LooksUp(table);
    ReachedNext(Online(Looping, table), HandlerLookup("c"), Online(Refreshing(0), table));
    Refreshes(table, later, next);
    ReachedNext(Online(Refreshing(0), table), HandlerIssue("c", later, next), Online(Looping, TC.IssueTable(table, next, later)));
    assert TC.Reusable(TC.Prune(table, later), "c", later) == {};
  }
}
